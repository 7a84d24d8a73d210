/**
 * The HTTP controller's two weather endpoints: parse the query, validate
 * it in a fixed order, then hand it to the use case. Query parsing is an
 * input (`None` when the parser failed); the use case is a function of the
 * validated query.
 */
module Handler {
  import opened Wrappers
  import opened Model

  const StatusBadRequest: int := 400

  /** An error the framework turns into a response with this status and message. */
  datatype HttpError = HttpError(status: int, message: string)

  const InvalidQuery := HttpError(StatusBadRequest, "invalid query parameters")
  const CityRequired := HttpError(StatusBadRequest, "city is required")
  const DaysOutOfRange := HttpError(StatusBadRequest, "days must be between 1 and 7")

  /**
   * What a handler returns: a 400 before the use case is asked, the use
   * case's error wrapped under a context message, or the result as JSON.
   */
  datatype Response<T, E> =
    | Rejected(error: HttpError)
    | Wrapped(context: string, cause: E)
    | Json(body: T)

  /** The guards of GetCurrent: a parsed query with a non-empty city. */
  function CheckCurrent(parsed: Option<CurrentQuery>): (r: Result<CurrentQuery, HttpError>)
    ensures r.Success? <==> parsed.Some? && parsed.value.city != ""
    ensures r.Success? ==> r.value == parsed.value
    ensures r.Failure? ==> r.error.status == StatusBadRequest
    ensures parsed.None? ==> r == Failure(InvalidQuery)
    ensures parsed.Some? && parsed.value.city == "" ==> r == Failure(CityRequired)
  {
    match parsed
    case None => Failure(InvalidQuery)
    case Some(q) =>
      if q.city == "" then Failure(CityRequired) else Success(q)
  }

  /** The guards of GetForecast: a parsed query, a non-empty city, then days within 1..7. */
  function CheckForecast(parsed: Option<ForecastQuery>): (r: Result<ForecastQuery, HttpError>)
    ensures r.Success? <==> parsed.Some? && parsed.value.city != "" && 1 <= parsed.value.days <= 7
    ensures r.Success? ==> r.value == parsed.value
    ensures r.Failure? ==> r.error.status == StatusBadRequest
    ensures parsed.None? ==> r == Failure(InvalidQuery)
    ensures parsed.Some? && parsed.value.city == "" ==> r == Failure(CityRequired)
    ensures parsed.Some? && parsed.value.city != "" && !(1 <= parsed.value.days <= 7) ==>
      r == Failure(DaysOutOfRange)
  {
    match parsed
    case None => Failure(InvalidQuery)
    case Some(q) =>
      if q.city == "" then Failure(CityRequired)
      else if q.days < 1 || q.days > 7 then Failure(DaysOutOfRange)
      else Success(q)
  }

  /** GetCurrent: validate, then delegate; a use-case error is wrapped, not turned into a 400. */
  function GetCurrent<T, E>(parsed: Option<CurrentQuery>, useCase: CurrentQuery -> Result<T, E>): (resp: Response<T, E>)
    ensures resp.Rejected? <==> CheckCurrent(parsed).Failure?
    ensures resp.Rejected? ==> resp.error == CheckCurrent(parsed).error
    ensures !resp.Rejected? ==> parsed.Some? && parsed.value.city != ""
    ensures resp.Wrapped? ==> resp.context == "failed to get current weather"
    ensures resp.Wrapped? ==> useCase(parsed.value) == Failure(resp.cause)
    ensures resp.Json? ==> useCase(parsed.value) == Success(resp.body)
  {
    match CheckCurrent(parsed)
    case Failure(e) => Rejected(e)
    case Success(q) =>
      match useCase(q)
      case Failure(err) => Wrapped("failed to get current weather", err)
      case Success(result) => Json(result)
  }

  /** GetForecast: validate, then delegate; a use-case error is wrapped, not turned into a 400. */
  function GetForecast<T, E>(parsed: Option<ForecastQuery>, useCase: ForecastQuery -> Result<T, E>): (resp: Response<T, E>)
    ensures resp.Rejected? <==> CheckForecast(parsed).Failure?
    ensures resp.Rejected? ==> resp.error == CheckForecast(parsed).error
    ensures !resp.Rejected? ==> parsed.Some? && parsed.value.city != "" && 1 <= parsed.value.days <= 7
    ensures resp.Wrapped? ==> resp.context == "failed to get forecast"
    ensures resp.Wrapped? ==> useCase(parsed.value) == Failure(resp.cause)
    ensures resp.Json? ==> useCase(parsed.value) == Success(resp.body)
  {
    match CheckForecast(parsed)
    case Failure(e) => Rejected(e)
    case Success(q) =>
      match useCase(q)
      case Failure(err) => Wrapped("failed to get forecast", err)
      case Success(result) => Json(result)
  }

  /** A rejected forecast request never reached the use case: any use case gives the same answer. */
  lemma ForecastRejectionIgnoresUseCase<T, E>(
    parsed: Option<ForecastQuery>, u1: ForecastQuery -> Result<T, E>, u2: ForecastQuery -> Result<T, E>)
    requires GetForecast(parsed, u1).Rejected?
    ensures GetForecast(parsed, u2) == GetForecast(parsed, u1)
  {
  }

  /** Likewise for the current-weather endpoint. */
  lemma CurrentRejectionIgnoresUseCase<T, E>(
    parsed: Option<CurrentQuery>, u1: CurrentQuery -> Result<T, E>, u2: CurrentQuery -> Result<T, E>)
    requires GetCurrent(parsed, u1).Rejected?
    ensures GetCurrent(parsed, u2) == GetCurrent(parsed, u1)
  {
  }

  /** An empty city is reported even when `days` is also out of range: the city guard runs first. */
  lemma CityCheckedBeforeDays(city: string, days: int)
    requires city == "" && (days < 1 || days > 7)
    ensures CheckForecast(Some(ForecastQuery(city, days))) == Failure(CityRequired)
  {
  }

  /** A valid query reaches the use case unchanged, and its answer decides the response. */
  lemma ValidForecastIsDelegated<T, E>(q: ForecastQuery, useCase: ForecastQuery -> Result<T, E>)
    requires q.city != "" && 1 <= q.days <= 7
    ensures useCase(q).Success? ==> GetForecast(Some(q), useCase) == Json(useCase(q).value)
    ensures useCase(q).Failure? ==> GetForecast(Some(q), useCase) == Wrapped("failed to get forecast", useCase(q).error)
  {
  }

  /** A query with a city reaches the current-weather use case unchanged. */
  lemma ValidCurrentIsDelegated<T, E>(q: CurrentQuery, useCase: CurrentQuery -> Result<T, E>)
    requires q.city != ""
    ensures useCase(q).Success? ==> GetCurrent(Some(q), useCase) == Json(useCase(q).value)
    ensures useCase(q).Failure? ==> GetCurrent(Some(q), useCase) == Wrapped("failed to get current weather", useCase(q).error)
  {
  }
}
