/**
 * The records of the service's domain model: cities, the raw and aggregated
 * current-weather rows, forecast days and the two query shapes.
 */
module Model {

  /** A uuid.UUID, numbered; 0 is uuid.Nil. */
  type Uuid = nat

  const NilUuid: Uuid := 0

  /** A time.Time as whole seconds since 1970-01-01 00:00:00 UTC. */
  datatype Time = Time(unixSeconds: int)

  /** The zero time.Time: January 1 of year 1, 00:00:00 UTC. */
  const ZeroTime: Time := Time(-62135596800)

  /** A tracked location. */
  datatype City = City(id: Uuid, name: string, enabled: bool, createdAt: Time)

  /** Why a call to a weather provider failed. */
  datatype ProviderError =
    | NetworkError       // the HTTP request itself failed
    | RateLimited        // HTTP 429
    | HttpStatus(code: int)
    | DecodeFailed       // the body was not the expected JSON

  /** The values of a WeatherData record, as an insert writes them. */
  datatype WeatherRow = WeatherRow(
    cityId: Uuid,
    source: string,
    temperature: real,
    humidity: int,
    windSpeed: real,
    createdAt: Time)

  /** The zero WeatherData record. */
  const EmptyRow: WeatherRow := WeatherRow(NilUuid, "", 0.0, 0, 0.0, ZeroTime)

  /** One provider's normalised current reading, filled in place by an adapter. */
  class WeatherData {
    var cityId: Uuid
    var source: string
    var temperature: real
    var humidity: int
    var windSpeed: real
    var createdAt: Time

    /** The zero value of the record. */
    constructor ()
      ensures Row() == EmptyRow
    {
      cityId := NilUuid;
      source := "";
      temperature := 0.0;
      humidity := 0;
      windSpeed := 0.0;
      createdAt := ZeroTime;
    }

    /** The values this record currently holds. */
    function Row(): WeatherRow
      reads this
    {
      WeatherRow(cityId, source, temperature, humidity, windSpeed, createdAt)
    }
  }

  /** The reconciled reading of one city. */
  datatype AggregatedWeatherData = AggregatedWeatherData(
    cityId: Uuid,
    temperature: real,
    humidity: int,
    windSpeed: real,
    createdAt: Time)

  datatype CurrentQuery = CurrentQuery(city: string)

  datatype ForecastQuery = ForecastQuery(city: string, days: int)

  /** One day of a provider's forecast, in the service's own schema. */
  datatype ForecastDay = ForecastDay(
    date: Time,
    temperature: real,
    humidity: int,
    windSpeed: real,
    description: string)

  /** One day of the forecast as the API returns it. */
  datatype AggregatedForecastDay = AggregatedForecastDay(
    date: Time,
    temperature: real,
    humidity: int,
    windSpeed: real,
    descriptions: seq<string>)

  datatype AggregatedForecast = AggregatedForecast(city: string, days: seq<AggregatedForecastDay>)
}
