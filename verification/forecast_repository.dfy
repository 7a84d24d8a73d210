/**
 * The forecast path of the Postgres repository: ask a provider for a
 * forecast and reshape its days into the service's schema. Each HTTP
 * request and its JSON decode is an input: the reply the provider gave.
 */
module ForecastRepository {
  import opened Wrappers
  import opened Model
  import opened GoNumeric
  import Dates

  /** Why a forecast could not be produced. */
  datatype ForecastError =
    | DaysOutOfRange              // "days must be between 1 and 7"
    | Provider(cause: ProviderError)

  /** One `forecast.forecastday` entry of a WeatherAPI forecast; wind in km/h. */
  datatype ForecastDayWA = ForecastDayWA(
    date: string,
    avgTempC: real,
    avgHumidity: real,
    maxWindKph: real,
    conditionText: string)

  /** One `daily` entry of an OpenWeatherMap one-call reply, with its weather descriptions. */
  datatype Daily = Daily(dt: int, tempDay: real, humidity: int, windSpeed: real, descriptions: seq<string>)

  /** The coordinates the OpenWeatherMap city lookup returns. */
  datatype Coord = Coord(lat: real, lon: real)

  /**
   * `f` is what the WeatherAPI mapper makes of entry `d`: the parsed date
   * (the zero time when it does not parse), the average temperature as is,
   * the average humidity truncated, the maximum wind in m/s, the condition text.
   */
  predicate MapsWeatherAPIDay(d: ForecastDayWA, f: ForecastDay) {
    && f.date == Dates.ParseDate(d.date).GetOr(ZeroTime)
    && f.temperature == d.avgTempC
    && f.humidity == Truncate(d.avgHumidity)
    && f.windSpeed == d.maxWindKph / 3.6
    && f.description == d.conditionText
  }

  /**
   * `f` is what the OpenWeatherMap mapper makes of entry `d`: its timestamp,
   * day temperature, humidity and wind, and the first description or "".
   */
  predicate MapsOWMDay(d: Daily, f: ForecastDay) {
    && f.date == Time(d.dt)
    && f.temperature == d.tempDay
    && f.humidity == d.humidity
    && f.windSpeed == d.windSpeed
    && f.description == if |d.descriptions| > 0 then d.descriptions[0] else ""
  }

  /** `a` is the API's day for forecast day `f`: every field copied, the description as a one-element list. */
  predicate Widens(f: ForecastDay, a: AggregatedForecastDay) {
    && a.date == f.date
    && a.temperature == f.temperature
    && a.humidity == f.humidity
    && a.windSpeed == f.windSpeed
    && a.descriptions == [f.description]
  }

  /** `a` is the API's day for WeatherAPI entry `d`: the entry mapped, then widened. */
  predicate ServesWeatherAPIDay(d: ForecastDayWA, a: AggregatedForecastDay) {
    && a.date == Dates.ParseDate(d.date).GetOr(ZeroTime)
    && a.temperature == d.avgTempC
    && a.humidity == Truncate(d.avgHumidity)
    && a.windSpeed == d.maxWindKph / 3.6
    && a.descriptions == [d.conditionText]
  }

  /**
   * fetchWeatherAPIForecast: refuse `days` outside 1..7 before any request,
   * otherwise map every returned day, in the provider's order.
   */
  method FetchWeatherAPIForecast(days: int, reply: Result<seq<ForecastDayWA>, ProviderError>)
    returns (r: Result<seq<ForecastDay>, ForecastError>)
    ensures days < 1 || days > 7 ==> r == Failure(DaysOutOfRange)
    ensures 1 <= days <= 7 && reply.Failure? ==> r == Failure(Provider(reply.error))
    ensures r.Success? <==> 1 <= days <= 7 && reply.Success?
    ensures r.Success? ==> |r.value| == |reply.value|
    ensures r.Success? ==> forall i :: 0 <= i < |r.value| ==> MapsWeatherAPIDay(reply.value[i], r.value[i])
  {
    if days < 1 || days > 7 {
      return Failure(DaysOutOfRange);
    }
    if reply.Failure? {
      return Failure(Provider(reply.error));
    }
    var forecastday := reply.value;
    var result := new ForecastDay[|forecastday|];
    for i := 0 to |forecastday|
      invariant forall k :: 0 <= k < i ==> MapsWeatherAPIDay(forecastday[k], result[k])
    {
      var d := forecastday[i];
      var date := Dates.ParseDate(d.date).GetOr(ZeroTime);  // a parse error is dropped
      result[i] := ForecastDay(date, d.avgTempC, Truncate(d.avgHumidity), d.maxWindKph / 3.6, d.conditionText);
    }
    return Success(result[..]);
  }

  /**
   * fetchOWMForecast: refuse `days` outside 1..7 before any request, look
   * the city's coordinates up, fetch the one-call forecast for them, and map
   * at most `days` of its daily entries from the front.
   */
  method FetchOWMForecast(
    days: int,
    cityReply: Result<Coord, ProviderError>,
    oneCall: Coord -> Result<seq<Daily>, ProviderError>)
    returns (r: Result<seq<ForecastDay>, ForecastError>)
    ensures days < 1 || days > 7 ==> r == Failure(DaysOutOfRange)
    ensures 1 <= days <= 7 && cityReply.Failure? ==> r == Failure(Provider(cityReply.error))
    ensures 1 <= days <= 7 && cityReply.Success? && oneCall(cityReply.value).Failure? ==>
      r == Failure(Provider(oneCall(cityReply.value).error))
    ensures r.Success? <==> 1 <= days <= 7 && cityReply.Success? && oneCall(cityReply.value).Success?
    ensures r.Success? ==>
      var daily := oneCall(cityReply.value).value;
      && |r.value| == (if |daily| < days then |daily| else days)
      && forall i :: 0 <= i < |r.value| ==> MapsOWMDay(daily[i], r.value[i])
  {
    if days < 1 || days > 7 {
      return Failure(DaysOutOfRange);
    }
    if cityReply.Failure? {
      return Failure(Provider(cityReply.error));
    }
    var oneCallResp := oneCall(cityReply.value);
    if oneCallResp.Failure? {
      return Failure(Provider(oneCallResp.error));
    }
    var daily := oneCallResp.value;
    var n := days;
    if |daily| < n {
      n := |daily|;
    }
    var result := new ForecastDay[n];
    for i := 0 to n
      invariant forall k :: 0 <= k < i ==> MapsOWMDay(daily[k], result[k])
    {
      var d := daily[i];
      var desc := "";
      if |d.descriptions| > 0 {
        desc := d.descriptions[0];
      }
      result[i] := ForecastDay(Time(d.dt), d.tempDay, d.humidity, d.windSpeed, desc);
    }
    return Success(result[..]);
  }

  /**
   * GetForecast: the WeatherAPI forecast for the query's city, each day
   * copied into the API's shape; a fetch error is returned unchanged.
   */
  method GetForecast(q: ForecastQuery, reply: Result<seq<ForecastDayWA>, ProviderError>)
    returns (r: Result<AggregatedForecast, ForecastError>)
    ensures q.days < 1 || q.days > 7 ==> r == Failure(DaysOutOfRange)
    ensures 1 <= q.days <= 7 && reply.Failure? ==> r == Failure(Provider(reply.error))
    ensures r.Success? <==> 1 <= q.days <= 7 && reply.Success?
    ensures r.Success? ==> r.value.city == q.city && |r.value.days| == |reply.value|
    ensures r.Success? ==> forall i :: 0 <= i < |r.value.days| ==> ServesWeatherAPIDay(reply.value[i], r.value.days[i])
  {
    var apiData := FetchWeatherAPIForecast(q.days, reply);
    if apiData.Failure? {
      return Failure(apiData.error);
    }
    var days := apiData.value;
    var aggregated := new AggregatedForecastDay[|days|];
    for i := 0 to |days|
      invariant forall k :: 0 <= k < i ==> Widens(days[k], aggregated[k])
    {
      aggregated[i] := AggregatedForecastDay(days[i].date, days[i].temperature, days[i].humidity, days[i].windSpeed, [days[i].description]);
    }
    return Success(AggregatedForecast(q.city, aggregated[..]));
  }

  /**
   * Every date a WeatherAPI forecast day carries is a UTC midnight, whether
   * its string parsed or the zero date stood in for it.
   */
  lemma WeatherAPIDatesAreMidnights(d: ForecastDayWA, f: ForecastDay)
    requires MapsWeatherAPIDay(d, f)
    ensures f.date.unixSeconds % Dates.SecondsPerDay == 0
  {
    if Dates.ParseDate(d.date).None? {
      assert f.date == ZeroTime;
    }
  }

  /** A day whose date string is not a calendar date keeps its readings and carries the zero date. */
  lemma UnparseableDateIsZero(f: ForecastDay)
    requires MapsWeatherAPIDay(ForecastDayWA("2024-02-30", 4.5, 81.9, 18.0, "Light rain"), f)
    ensures f == ForecastDay(ZeroTime, 4.5, 81, 5.0, "Light rain")
  {
    assert Dates.DaysIn(2, 2024) == 29;
  }
}
