# Weather data aggregator — a Dafny model of its core

The service keeps a list of tracked cities. On a schedule it fetches each city's current weather from two providers, OpenWeatherMap and WeatherAPI. It writes both raw readings and their average into Postgres inside one transaction. Over HTTP it serves the latest aggregate and a multi-day forecast.

This project models the logic behind those paths and proves what that logic guarantees:

- **The collector sweep** (`src/infrastructure/weather/weather.go`):
  - `retry`, with its doubling pauses;
  - the circuit breakers' trip rule;
  - the two adapters, which fill a record only after a successful reply;
  - the per-city gate and write order;
  - the loop over the cities.

  The sweep is imperative code, and so is its model:
  - `WeatherData` is a class whose fields the adapters assign;
  - `WeatherClient` holds the city list and a log of the database calls it makes;
  - the sweep and retry loops are `while`/`for` loops proved against specification functions (`RetryRun`, `CityWrites`, `SweepWrites`).
- **The forecast repository** (`src/parts/weather/repository/postgres/postgres.go`):
  - the days guard;
  - the two provider mappers (WeatherAPI, and the currently unused OpenWeatherMap one);
  - the reshaping in `GetForecast`.

  The Go code fills freshly made slices index by index. The model fills a fresh `array` in a `for` loop.
- **The HTTP handlers** (`src/parts/weather/delivery/http/handler.go`): the ordered validation guards of `GetCurrent` and `GetForecast`, and the hand-off to the use case. These are pure functions from a parsed query to a response.

Supporting modules:
- `GoNumeric` gives Go's rounding: `math.Round` rounds half away from zero; `int(x)` truncates; `/` on integers truncates toward zero.
- `Dates` gives `time.Parse` with the layout `2006-01-02`.
- `Model` holds the records of `src/domain/model`.

Everything the code receives from outside is a parameter of the model. This covers provider replies, the breaker's admission decision, the time each city's fetch starts, and whether each insert succeeded.

Files: `wrappers.dfy`, `go_numeric.dfy`, `model.dfy`, `resilience.dfy`, `collector.dfy`, `dates.dfy`, `forecast_repository.dfy`, `handler.dfy`.

### Behaviour worth knowing

- The aggregate is built without `CreatedAt` (src/infrastructure/weather/weather.go:132-137), so the value handed to the insert carries Go's zero time (`ZeroTime`, 0001-01-01 UTC).
- A failed insert calls `Rollback` (src/infrastructure/weather/weather.go:272, 280), yet the remaining inserts and the `Commit` (src/infrastructure/weather/weather.go:139) still run on the same transaction. `Collector.CommitFollowsRollback` and `Collector.TxOrder` state this.

## Model

| member | source | states |
|---|---|---|
| GoNumeric.Half | src/infrastructure/weather/weather.go:135 | Go's integer halving truncates toward zero: for x ≥ 0, 2q ≤ x ≤ 2q+1, and for x < 0, 2q−1 ≤ x ≤ 2q |
| GoNumeric.Round | src/infrastructure/weather/weather.go:136 | `math.Round`: the result is within ½ of x, and an exact half goes away from zero |
| GoNumeric.Round2 | src/infrastructure/weather/weather.go:201 | the result is a whole number of hundredths: 100·y is `math.Round(100·x)`; so it is at most 0.005 from x |
| GoNumeric.Truncate | src/parts/weather/repository/postgres/postgres.go:174 | `int(x)` truncates toward zero: for x ≥ 0, n ≤ x < n+1, and for x < 0, n−1 < x ≤ n |
| Model.WeatherData.constructor | src/domain/model/weather.go:11-22 | a fresh record is the zero value: nil city id, empty source, zero readings, zero time |
| Resilience.Retry | src/infrastructure/weather/weather.go:53-65 | the loop's outcome, number of calls and pauses are exactly those of the specification `RetryRun` |
| Resilience.RetryFromFacts | src/infrastructure/weather/weather.go:57-63 | from any iteration: calls stop at the first success or after the last attempt; the error returned is the last call's; every earlier call failed; the k-th pause is delay·2^k |
| Resilience.RetryFrom | src/infrastructure/weather/weather.go:57-64 | the loop from iteration i: with an attempt left it makes at least one and at most `attempts` calls in all; with none left it returns the error it holds, without calls or pauses |
| Resilience.RetryRun | src/infrastructure/weather/weather.go:53-65 | a whole run of `retry`: with attempts ≤ 0, `fn` is never called and nil is returned; otherwise it makes between 1 and `attempts` calls |
| Resilience.RetryStopsAtFirstSuccess | src/infrastructure/weather/weather.go:58-60 | if call k is the first success, retry returns nil after k+1 calls and k pauses |
| Resilience.RetryAllFail | src/infrastructure/weather/weather.go:57-64 | if every call fails, there are exactly `attempts` calls and `attempts` pauses, and the last error is returned |
| Resilience.RetrySleepsDouble | src/infrastructure/weather/weather.go:55-62 | in every run: at most `attempts` calls; every call before the last failed; one pause per failed call; the k-th pause is base·2^k |
| Resilience.ReadyToTrip | src/infrastructure/weather/weather.go:28-34 | trips iff requests ≥ 10 and failures exceed half the requests; never below 10 requests (both breakers use the same rule, 42-48) |
| Resilience.RateAboveHalf | src/infrastructure/weather/weather.go:32-33 | for positive requests, failures/requests > 0.5 iff 2·failures > requests |
| Resilience.TripNeedsSixFailures | src/infrastructure/weather/weather.go:28-34 | a tripping breaker has seen at least six failures |
| Collector.FetchOpenWeather | src/infrastructure/weather/weather.go:175-204 | returns the reply's error; on failure the record is untouched; on success it holds the city id, source "OpenWeatherMap", temperature, humidity, wind rounded to 2 decimals, and the city's fetch time |
| Collector.FetchWeatherAPI | src/infrastructure/weather/weather.go:237-266 | as above, with source "WeatherAPI" and wind converted from km/h to m/s, then rounded |
| Collector.CollectOpenWeather | src/infrastructure/weather/weather.go:86-101 | after breaker and retry, the record is filled from the last reply exactly when a payload arrived, and is empty otherwise |
| Collector.CollectWeatherAPI | src/infrastructure/weather/weather.go:103-118 | likewise for WeatherAPI |
| Collector.FinalPayload | src/infrastructure/weather/weather.go:87-100 | the payload a provider's record ends with: none when the breaker rejects the call; otherwise, if any, the payload of one of the 3 attempts' replies |
| Collector.FinalPayloadIsFirstSuccess | src/infrastructure/weather/weather.go:90-93 | when the breaker admits the call and call k is the first success within 3 attempts, the record carries call k's payload |
| Collector.NoPayloadWhenAllFail | src/infrastructure/weather/weather.go:90-100 | a rejected call, or three failed attempts, leave the record unfilled |
| Collector.FinalPayloadIff | src/infrastructure/weather/weather.go:87-118 | a payload arrives iff the breaker admits the call and some attempt among the 3 succeeds |
| Collector.WeatherClient.constructor | src/infrastructure/weather/client.go:11-16 | a new client holds the given (already loaded) cities and has made no database calls |
| Collector.WeatherClient.SaveRow | src/infrastructure/weather/weather.go:269-283 | one insert, followed by a rollback exactly when the insert failed |
| Collector.WeatherClient.WriteCity | src/infrastructure/weather/weather.go:125-141 | appends BeginTx, the OpenWeatherMap row, the WeatherAPI row, the aggregate, then Commit, each insert with its rollback if it failed |
| Collector.WeatherClient.FetchCityWeather | src/infrastructure/weather/weather.go:73-143 | appends exactly `CityWrites` for the city: a transaction only when both records carry a non-nil city id; the city list is unchanged |
| Collector.WeatherClient.FetchWeatherData | src/infrastructure/weather/weather.go:67-71 | appends each city's writes in list order, one city after another |
| Collector.Aggregate | src/infrastructure/weather/weather.go:132-137 | the aggregate record: the city's id, zero CreatedAt, the mean temperature, the truncated mean humidity (floor mean for non-negative readings), and the mean wind within 0.005 |
| Collector.TxWrites | src/infrastructure/weather/weather.go:125-141 | a city's transaction: starts with BeginTx, ends with Commit, and has 5 calls plus one per failed insert |
| Collector.CityWrites | src/infrastructure/weather/weather.go:122-141 | a city's calls are non-empty iff its id is non-nil and both providers delivered a payload, and then they are the transaction of the two fetched records |
| Collector.SweepWrites | src/infrastructure/weather/weather.go:67-71 | a sweep makes no database call iff no city had both records filled |
| Collector.WritesIffBothFilled | src/infrastructure/weather/weather.go:122 | a city is written iff both fetched records carry a non-nil city id |
| Collector.FailedFetchWritesNothing | src/infrastructure/weather/weather.go:96-100 | an open breaker, or three failures, on either provider suppress every write for that city |
| Collector.NilCityWritesNothing | src/infrastructure/weather/weather.go:122 | a city with the nil id is never written, even when both fetches succeed |
| Collector.BothFetchedWriteOrder | src/infrastructure/weather/weather.go:129-139 | when both payloads arrive and the inserts succeed, the calls are exactly BeginTx, OWM raw, WeatherAPI raw, aggregate, Commit; all three rows carry the city id; both raw rows carry the city's fetch time; humidity is the truncated mean |
| Collector.CommitFollowsRollback | src/infrastructure/weather/weather.go:125-141 | every write path starts with BeginTx and ends with Commit; it holds one BeginTx, one Commit, three Inserts and one Rollback per failed insert, and every Rollback directly follows an Insert |
| Collector.AggregateHumidityIsMean | src/infrastructure/weather/weather.go:135 | for non-negative readings the aggregate humidity is the floor of the mean and lies between the two readings |
| Collector.CountAppend | src/infrastructure/weather/weather.go:125-141 | counts of each kind of call add up over concatenated logs |
| Collector.CountSave | src/infrastructure/weather/weather.go:269-283 | one save holds one Insert, and one Rollback exactly when the insert failed |
| Collector.TxCounts | src/infrastructure/weather/weather.go:125-141 | a city's transaction holds one BeginTx, one Commit, three Inserts and one Rollback per failed insert |
| Collector.TxOrder | src/infrastructure/weather/weather.go:129-139 | in a city's transaction each insert is in its place (OWM raw, WeatherAPI raw, aggregate), the call after each is a Rollback exactly when that insert failed, and no Rollback appears anywhere else |
| Collector.SweepCommitsOncePerFilledCity | src/infrastructure/weather/weather.go:67-71 | a sweep commits exactly once per city whose two records were both filled |
| Collector.ParisAggregate | src/infrastructure/weather/weather.go:132-137 | the worked example, in exact arithmetic: OWM gives 10 °C, 80 %, 3.0 m/s and WeatherAPI gives 12 °C, 70 %, 5 km/h (1.39 m/s), so the aggregate is 11 °C, 75 %, 2.2 m/s |
| Dates.ParseDate | src/parts/weather/repository/postgres/postgres.go:170 | a string parses iff it has the shape dddd-dd-dd, its month is in 1..12 and its day is within that month; it then parses to that day's UTC midnight |
| Dates.ParseFormat | src/parts/weather/repository/postgres/postgres.go:170 | every calendar day of years 0..9999, written zero-padded in the layout, parses back to its own midnight |
| Dates.Midnight | src/parts/weather/repository/postgres/postgres.go:170 | the instant a parsed date stands for is a UTC midnight: a whole number of days from the Unix epoch |
| Dates.FirstDayIsZeroTime | src/parts/weather/repository/postgres/postgres.go:170 | "0001-01-01" parses to the zero time |
| Dates.EpochDay | src/parts/weather/repository/postgres/postgres.go:170 | "1970-01-01" parses to Unix second 0 |
| Dates.RejectedDates | src/parts/weather/repository/postgres/postgres.go:170 | a 29 February outside a leap year, month 13, an unpadded month and the empty string do not parse |
| Dates.NextDayInMonth | src/parts/weather/repository/postgres/postgres.go:170 | consecutive days of a month are 86400 seconds apart |
| Dates.NextDayAcrossMonth | src/parts/weather/repository/postgres/postgres.go:170 | the first of a month is 86400 seconds after the last day of the previous month |
| Dates.YearLength | src/parts/weather/repository/postgres/postgres.go:170 | a Gregorian year has 366 days iff it is a leap year, else 365 |
| Dates.NextDayAcrossYear | src/parts/weather/repository/postgres/postgres.go:170 | 1 January is 86400 seconds after the previous 31 December |
| ForecastRepository.FetchWeatherAPIForecast | src/parts/weather/repository/postgres/postgres.go:150-181 | days outside 1..7 fail before any request; a provider error passes through; otherwise one day per entry, in order: parsed date (zero if unparseable), avg temperature, truncated humidity, wind in m/s, condition text |
| ForecastRepository.FetchOWMForecast | src/parts/weather/repository/postgres/postgres.go:94-148 | the same days guard; the city lookup's and the one-call request's errors pass through; otherwise min(days, len(daily)) entries from the front, in order, each with the first description or "" |
| ForecastRepository.GetForecast | src/parts/weather/repository/postgres/postgres.go:47-92 | the fetch error is returned unchanged; otherwise City is the query's city and there is one day per provider day, in order, with fields copied and the description wrapped in a one-element list |
| ForecastRepository.WeatherAPIDatesAreMidnights | src/parts/weather/repository/postgres/postgres.go:170-172 | every forecast day's date is a UTC midnight, whether it parsed or fell back to the zero time |
| ForecastRepository.UnparseableDateIsZero | src/parts/weather/repository/postgres/postgres.go:170-177 | "2024-02-30" does not fail the call: that day carries the zero date and its other readings |
| Handler.CheckCurrent | src/parts/weather/delivery/http/handler.go:27-33 | a parse failure gives 400 "invalid query parameters", and an empty city gives 400 "city is required"; it passes iff the query parsed and has a city, and then passes it through unchanged |
| Handler.CheckForecast | src/parts/weather/delivery/http/handler.go:47-57 | parse failure, then empty city, then days outside 1..7 ("days must be between 1 and 7"), all 400; it passes iff none applies, unchanged |
| Handler.GetCurrent | src/parts/weather/delivery/http/handler.go:23-41 | rejected exactly when the checks fail; otherwise the use case's error is wrapped under "failed to get current weather" (not a 400), or its result is returned |
| Handler.GetForecast | src/parts/weather/delivery/http/handler.go:43-65 | rejected exactly when the checks fail; otherwise the use case's error is wrapped under "failed to get forecast", or its result is returned |
| Handler.ForecastRejectionIgnoresUseCase | src/parts/weather/delivery/http/handler.go:47-57 | a rejected forecast request gives the same response whatever the use case does |
| Handler.CurrentRejectionIgnoresUseCase | src/parts/weather/delivery/http/handler.go:27-33 | a rejected current-weather request gives the same response whatever the use case does |
| Handler.CityCheckedBeforeDays | src/parts/weather/delivery/http/handler.go:51-57 | an empty city with bad days reports "city is required" |
| Handler.ValidForecastIsDelegated | src/parts/weather/delivery/http/handler.go:59-64 | a valid query reaches the use case unchanged, and its answer decides the response |
| Handler.ValidCurrentIsDelegated | src/parts/weather/delivery/http/handler.go:35-40 | a query with a city reaches the use case unchanged, and its answer decides the response |

## Left out

- HTTP requests, URL building and escaping, and JSON decoding are left out. Each adapter call is a given reply: a decoded payload or an error.
- The adapters' inner `backoff.Retry` (cenk/backoff) is left out. Its permanent stop on HTTP 429 and its retries on other failures are folded into the single reply of one adapter call.
- gobreaker's state machine is left out: closed, open and half-open, `Timeout`, `Interval`, `MaxRequests`. It is library code. Only the repository's `ReadyToTrip` rule is modelled. Whether a breaker admits a call is an input.
- Goroutines and the WaitGroup are not modelled as concurrency. The two fetches write disjoint records and are joined before anything reads them, so they are modelled one after the other.
- Collector.CollectOpenWeather: applies the adapter once, to the reply of the last call that `retry` made, rather than once per call. Failed calls leave the record untouched, so the final record is the same.
- Collector.ParisAggregate: holds in exact arithmetic only. In float64, (3.0 + 1.39) / 2 · 100 is 219.49999999999997, so `math.Round` gives 219 and weather.go:136 stores 2.19 m/s, not 2.2.
- Floating point is left out. `float64` readings are exact `real`s, so IEEE-754 rounding of the division by 3.6 and of the ×100 scaling is not captured.
- Overflow is left out. `time.Duration` is an unbounded integer, so the int64 overflow of `delay *= 2` after about 34 doublings is not modelled (three attempts never get close). The breaker counters are `uint32` values, as in gobreaker.
- `time.Now`, `time.Sleep` and the logger are left out. Each city's fetch time (weather.go:79) is an input, and pauses are recorded as a sequence of durations rather than slept.
- `time.Time` is reduced to whole Unix seconds in UTC. Sub-second precision and locations are left out.
- Bun transaction semantics are left out. The database is the log of calls the service makes, and whether each insert succeeds is an input. A failed `BeginTx` is left out: the code only logs it and goes on with a transaction it did not get.
- Nothing is modelled of what Postgres stores in a column when a field is zero, such as the `default:current_timestamp` on `created_at`.
- The repository's `GetCurrent` is left out. It is two SQL queries that return the latest aggregate. `LoadCitiesFromDB`, the client constructor's wiring and the cron schedule are left out too.
- The averaging of OpenWeatherMap and WeatherAPI forecast days in `GetForecast` is commented out in the source, so it is not modelled. `FetchOWMForecast` is modelled on its own even though nothing calls it.
- Fiber's `QueryParser` is left out. Its outcome is the `Option` the handlers receive. How Fiber renders a wrapped use-case error (as a 500) is left out too.
