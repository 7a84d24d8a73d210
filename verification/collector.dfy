/**
 * The scheduled current-weather sweep: for each tracked city, fetch a reading
 * from OpenWeatherMap and from WeatherAPI (each behind its breaker and the
 * retry loop), and only when both records were filled write the two raw rows
 * and their aggregate in one transaction.
 *
 * The two fetches run as goroutines joined by a WaitGroup; they touch
 * disjoint records, so they are modelled one after the other. What a provider
 * answers is an input: a ProviderScript says whether its breaker admits the
 * call and what each successive adapter call returns.
 */
module Collector {
  import opened Wrappers
  import opened Model
  import opened GoNumeric
  import Resilience

  /** The fields the OpenWeatherMap adapter decodes from a current-weather reply. */
  datatype OpenWeatherCurrent = OpenWeatherCurrent(temp: real, humidity: int, windSpeed: real)

  /** The fields the WeatherAPI adapter decodes; wind is in km/h. */
  datatype WeatherAPICurrent = WeatherAPICurrent(tempC: real, humidity: int, windKph: real)

  /**
   * What one adapter call ends with: the request failed (after the adapter's
   * own backoff), the body did not decode, or the decoded payload.
   */
  type Reply<T> = Result<T, ProviderError>

  /**
   * One provider's behaviour for one city in one sweep: whether its circuit
   * breaker lets the call through, and the reply to its j-th adapter call.
   */
  datatype ProviderScript<T> = ProviderScript(admitted: bool, replies: nat -> Reply<T>)

  function OutcomeOf<T>(reply: Reply<T>): Outcome<ProviderError> {
    if reply.Success? then Pass else Fail(reply.error)
  }

  /** The error each adapter call returns to `retry`. */
  function Outcomes<T>(replies: nat -> Reply<T>): nat -> Outcome<ProviderError> {
    (j: nat) => OutcomeOf(replies(j))
  }

  /** The record the OpenWeatherMap adapter fills from a decoded reply. */
  function OpenWeatherRow(city: City, p: OpenWeatherCurrent, timeNow: Time): WeatherRow {
    WeatherRow(city.id, "OpenWeatherMap", p.temp, p.humidity, Round2(p.windSpeed), timeNow)
  }

  /** The record the WeatherAPI adapter fills; wind converted from km/h to m/s. */
  function WeatherAPIRow(city: City, p: WeatherAPICurrent, timeNow: Time): WeatherRow {
    WeatherRow(city.id, "WeatherAPI", p.tempC, p.humidity, Round2(p.windKph / 3.6), timeNow)
  }

  /** The OpenWeatherMap adapter: fill `data` only once the request and the decode both succeeded. */
  method FetchOpenWeather(data: WeatherData, city: City, reply: Reply<OpenWeatherCurrent>, timeNow: Time)
    returns (err: Outcome<ProviderError>)
    modifies data
    ensures err == OutcomeOf(reply)
    ensures reply.Failure? ==> data.Row() == old(data.Row())
    ensures reply.Success? ==> data.Row() == OpenWeatherRow(city, reply.value, timeNow)
  {
    if reply.Failure? {
      return Fail(reply.error);
    }
    var result := reply.value;
    data.cityId := city.id;
    data.source := "OpenWeatherMap";
    data.temperature := result.temp;
    data.humidity := result.humidity;
    data.windSpeed := Round2(result.windSpeed);
    data.createdAt := timeNow;
    return Pass;
  }

  /** The WeatherAPI adapter: fill `data` only once the request and the decode both succeeded. */
  method FetchWeatherAPI(data: WeatherData, city: City, reply: Reply<WeatherAPICurrent>, timeNow: Time)
    returns (err: Outcome<ProviderError>)
    modifies data
    ensures err == OutcomeOf(reply)
    ensures reply.Failure? ==> data.Row() == old(data.Row())
    ensures reply.Success? ==> data.Row() == WeatherAPIRow(city, reply.value, timeNow)
  {
    if reply.Failure? {
      return Fail(reply.error);
    }
    var result := reply.value;
    data.cityId := city.id;
    data.source := "WeatherAPI";
    data.temperature := result.tempC;
    data.humidity := result.humidity;
    data.windSpeed := Round2(result.windKph / 3.6);
    data.createdAt := timeNow;
    return Pass;
  }

  /**
   * The payload that ends up in a provider's record: none when the breaker
   * short-circuits, otherwise that of the last call `retry` made, if it
   * succeeded. Earlier calls failed and left the record alone.
   */
  function FinalPayload<T>(script: ProviderScript<T>): (r: Option<T>)
    ensures !script.admitted ==> r == None
    ensures r.Some? ==> exists k :: 0 <= k < Resilience.Attempts && script.replies(k) == Success(r.value)
  {
    if !script.admitted then None
    else
      var run := Resilience.RetryRun(Resilience.Attempts, Resilience.BaseDelay, Outcomes(script.replies));
      if run.calls > 0 && script.replies(run.calls - 1).Success?
      then Some(script.replies(run.calls - 1).value)
      else None
  }

  /** A provider's record after its goroutine: filled from the final payload, or still zero. */
  function OpenWeatherFetched(city: City, script: ProviderScript<OpenWeatherCurrent>, timeNow: Time): WeatherRow {
    match FinalPayload(script)
    case Some(p) => OpenWeatherRow(city, p, timeNow)
    case None => EmptyRow
  }

  function WeatherAPIFetched(city: City, script: ProviderScript<WeatherAPICurrent>, timeNow: Time): WeatherRow {
    match FinalPayload(script)
    case Some(p) => WeatherAPIRow(city, p, timeNow)
    case None => EmptyRow
  }

  /**
   * The OpenWeatherMap goroutine: Execute through the breaker, `retry` the
   * adapter three times from 300ms. A failed adapter call leaves the record
   * as it was, so the record ends as the last call left it.
   */
  method CollectOpenWeather(data: WeatherData, city: City, script: ProviderScript<OpenWeatherCurrent>, timeNow: Time)
    requires data.Row() == EmptyRow
    modifies data
    ensures data.Row() == OpenWeatherFetched(city, script, timeNow)
  {
    if !script.admitted {
      return;  // the breaker is open: the adapter is never called
    }
    var run := Resilience.Retry(Resilience.Attempts, Resilience.BaseDelay, Outcomes(script.replies));
    if run.calls > 0 {
      var err := FetchOpenWeather(data, city, script.replies(run.calls - 1), timeNow);
    }
  }

  /** The WeatherAPI goroutine, alike. */
  method CollectWeatherAPI(data: WeatherData, city: City, script: ProviderScript<WeatherAPICurrent>, timeNow: Time)
    requires data.Row() == EmptyRow
    modifies data
    ensures data.Row() == WeatherAPIFetched(city, script, timeNow)
  {
    if !script.admitted {
      return;
    }
    var run := Resilience.Retry(Resilience.Attempts, Resilience.BaseDelay, Outcomes(script.replies));
    if run.calls > 0 {
      var err := FetchWeatherAPI(data, city, script.replies(run.calls - 1), timeNow);
    }
  }

  /** A provider's record is filled exactly when some attempt succeeded, from the first that did. */
  lemma FinalPayloadIsFirstSuccess<T>(script: ProviderScript<T>, k: nat)
    requires script.admitted && k < Resilience.Attempts
    requires script.replies(k).Success?
    requires forall j :: 0 <= j < k ==> script.replies(j).Failure?
    ensures FinalPayload(script) == Some(script.replies(k).value)
  {
    var fn := Outcomes(script.replies);
    forall j | 0 <= j < k
      ensures fn(j).Fail?
    {
      assert script.replies(j).Failure?;
    }
    Resilience.RetryStopsAtFirstSuccess(Resilience.Attempts, Resilience.BaseDelay, fn, k);
  }

  /** An open breaker, or three failed attempts, leaves the record unfilled. */
  lemma NoPayloadWhenAllFail<T>(script: ProviderScript<T>)
    requires !script.admitted || forall j :: 0 <= j < Resilience.Attempts ==> script.replies(j).Failure?
    ensures FinalPayload(script) == None
  {
    if script.admitted {
      var fn := Outcomes(script.replies);
      forall j | 0 <= j < Resilience.Attempts
        ensures fn(j).Fail?
      {
        assert script.replies(j).Failure?;
      }
      Resilience.RetryAllFail(Resilience.Attempts, Resilience.BaseDelay, fn);
    }
  }

  /** Both directions: a payload arrives exactly when the breaker admits the call and one of three attempts succeeds. */
  lemma FinalPayloadIff<T>(script: ProviderScript<T>)
    ensures FinalPayload(script).Some? <==>
      script.admitted && exists k :: 0 <= k < Resilience.Attempts && script.replies(k).Success?
  {
    if script.admitted {
      if script.replies(0).Success? {
        FinalPayloadIsFirstSuccess(script, 0);
      } else if script.replies(1).Success? {
        FinalPayloadIsFirstSuccess(script, 1);
      } else if script.replies(2).Success? {
        FinalPayloadIsFirstSuccess(script, 2);
      } else {
        NoPayloadWhenAllFail(script);
      }
    }
  }

  /** Whether an insert reported success, for the three inserts of one city. */
  datatype InsertResults = InsertResults(openWeatherRaw: bool, weatherAPIRaw: bool, aggregate: bool)

  /** How many of the three inserts failed. */
  function FailedInserts(inserts: InsertResults): nat {
    (if inserts.openWeatherRaw then 0 else 1)
    + (if inserts.weatherAPIRaw then 0 else 1)
    + (if inserts.aggregate then 0 else 1)
  }

  /** Everything from outside that one city's processing depends on. */
  datatype CityInput = CityInput(
    timeNow: Time,
    openWeather: ProviderScript<OpenWeatherCurrent>,
    weatherAPI: ProviderScript<WeatherAPICurrent>,
    inserts: InsertResults)

  /** A row handed to an insert. */
  datatype Row = Raw(data: WeatherRow) | Aggregated(aggregate: AggregatedWeatherData)

  /** A call the service makes on the database. */
  datatype DbCall = BeginTx | Insert(row: Row) | Rollback | Commit

  /**
   * The aggregate of two raw records: the mean temperature, the truncating
   * integer mean of humidity and the mean wind rounded to two decimals.
   * CreatedAt is not set and keeps its zero value.
   */
  function Aggregate(city: City, ow: WeatherRow, wa: WeatherRow): (r: AggregatedWeatherData)
    ensures r.cityId == city.id && r.createdAt == ZeroTime
    ensures 2.0 * r.temperature == ow.temperature + wa.temperature
    ensures ow.humidity + wa.humidity >= 0 ==> 0 <= ow.humidity + wa.humidity - 2 * r.humidity <= 1
    ensures -0.005 <= r.windSpeed - (ow.windSpeed + wa.windSpeed) / 2.0 <= 0.005
  {
    AggregatedWeatherData(
      city.id,
      (ow.temperature + wa.temperature) / 2.0,
      Half(ow.humidity + wa.humidity),
      Round2((ow.windSpeed + wa.windSpeed) / 2.0),
      ZeroTime)
  }

  /** One save: the insert, then a rollback if it failed. */
  function Save(row: Row, ok: bool): seq<DbCall> {
    [Insert(row)] + if ok then [] else [Rollback]
  }

  /** The transaction written for a city whose two records were filled. */
  function TxWrites(city: City, ow: WeatherRow, wa: WeatherRow, inserts: InsertResults): (r: seq<DbCall>)
    ensures |r| == 5 + FailedInserts(inserts)
    ensures r[0] == BeginTx && r[|r| - 1] == Commit
  {
    [BeginTx]
    + Save(Raw(ow), inserts.openWeatherRaw)
    + Save(Raw(wa), inserts.weatherAPIRaw)
    + Save(Aggregated(Aggregate(city, ow, wa)), inserts.aggregate)
    + [Commit]
  }

  /** The database calls made while processing one city. */
  function CityWrites(city: City, input: CityInput): (r: seq<DbCall>)
    ensures r != [] <==>
      city.id != NilUuid && FinalPayload(input.openWeather).Some? && FinalPayload(input.weatherAPI).Some?
    ensures r != [] ==> r == TxWrites(city,
      OpenWeatherFetched(city, input.openWeather, input.timeNow),
      WeatherAPIFetched(city, input.weatherAPI, input.timeNow), input.inserts)
  {
    var ow := OpenWeatherFetched(city, input.openWeather, input.timeNow);
    var wa := WeatherAPIFetched(city, input.weatherAPI, input.timeNow);
    if ow.cityId != NilUuid && wa.cityId != NilUuid then TxWrites(city, ow, wa, input.inserts) else []
  }

  /** The database calls of a sweep over `cities`, the i-th city processed with `inputs(i)`. */
  function SweepWrites(cities: seq<City>, inputs: nat -> CityInput): (r: seq<DbCall>)
    ensures r == [] <==> FilledCities(cities, inputs) == 0
  {
    if cities == [] then []
    else SweepWrites(cities[..|cities| - 1], inputs) + CityWrites(cities[|cities| - 1], inputs(|cities| - 1))
  }

  /** The sweep's client: the tracked cities and the calls it has made on the database. */
  class WeatherClient {
    var cities: seq<City>
    var dbLog: seq<DbCall>

    constructor (cities: seq<City>)
      ensures this.cities == cities && dbLog == []
    {
      this.cities := cities;
      dbLog := [];
    }

    /** saveWeatherData / saveAggregatedWeatherData: insert, and roll back on failure. */
    method SaveRow(row: Row, ok: bool)
      modifies this`dbLog
      ensures dbLog == old(dbLog) + Save(row, ok)
    {
      dbLog := dbLog + [Insert(row)];
      if !ok {
        dbLog := dbLog + [Rollback];
      }
    }

    /**
     * The transaction of one city: both raw records, then their aggregate,
     * then Commit. A failed insert is rolled back and the remaining calls are
     * still made.
     */
    method WriteCity(city: City, openWeatherData: WeatherData, weatherAPIData: WeatherData, inserts: InsertResults)
      modifies this`dbLog
      ensures dbLog == old(dbLog) + TxWrites(city, openWeatherData.Row(), weatherAPIData.Row(), inserts)
    {
      ghost var ow, wa := openWeatherData.Row(), weatherAPIData.Row();
      dbLog := dbLog + [BeginTx];
      SaveRow(Raw(openWeatherData.Row()), inserts.openWeatherRaw);
      SaveRow(Raw(weatherAPIData.Row()), inserts.weatherAPIRaw);
      var aggregated := AggregatedWeatherData(
        city.id,
        (openWeatherData.temperature + weatherAPIData.temperature) / 2.0,
        Half(openWeatherData.humidity + weatherAPIData.humidity),
        Round2((openWeatherData.windSpeed + weatherAPIData.windSpeed) / 2.0),
        ZeroTime);
      assert aggregated == Aggregate(city, ow, wa);
      SaveRow(Aggregated(aggregated), inserts.aggregate);
      dbLog := dbLog + [Commit];
      AppendFive(old(dbLog), [BeginTx], Save(Raw(ow), inserts.openWeatherRaw),
        Save(Raw(wa), inserts.weatherAPIRaw), Save(Aggregated(Aggregate(city, ow, wa)), inserts.aggregate), [Commit]);
    }

    /** Fetch both readings for one city, and persist them with their aggregate when both records were filled. */
    method FetchCityWeather(city: City, input: CityInput)
      modifies this
      ensures cities == old(cities)
      ensures dbLog == old(dbLog) + CityWrites(city, input)
    {
      var timeNow := input.timeNow;
      var openWeatherData := new WeatherData();
      var weatherAPIData := new WeatherData();
      CollectOpenWeather(openWeatherData, city, input.openWeather, timeNow);
      CollectWeatherAPI(weatherAPIData, city, input.weatherAPI, timeNow);

      if openWeatherData.cityId != NilUuid && weatherAPIData.cityId != NilUuid {
        WriteCity(city, openWeatherData, weatherAPIData, input.inserts);
      }
    }

    /** One sweep: every city in list order, one at a time. */
    method FetchWeatherData(inputs: nat -> CityInput)
      modifies this
      ensures cities == old(cities)
      ensures dbLog == old(dbLog) + SweepWrites(cities, inputs)
    {
      for i := 0 to |cities|
        invariant cities == old(cities)
        invariant dbLog == old(dbLog) + SweepWrites(cities[..i], inputs)
      {
        ghost var before := dbLog;
        FetchCityWeather(cities[i], inputs(i));
        AppendStep(old(dbLog), before, dbLog, SweepWrites(cities[..i], inputs), CityWrites(cities[i], inputs(i)));
        SweepWritesSnoc(cities, i, inputs);
      }
      assert cities[..|cities|] == cities;
    }
  }

  /** Writes happen for a city exactly when both records carry a non-nil city id. */
  lemma WritesIffBothFilled(city: City, input: CityInput)
    ensures CityWrites(city, input) != [] <==>
      OpenWeatherFetched(city, input.openWeather, input.timeNow).cityId != NilUuid
      && WeatherAPIFetched(city, input.weatherAPI, input.timeNow).cityId != NilUuid
  {
  }

  /** A provider whose breaker is open, or whose three attempts all fail, suppresses every write for the city. */
  lemma FailedFetchWritesNothing(city: City, input: CityInput)
    requires || !input.openWeather.admitted
             || (forall j :: 0 <= j < Resilience.Attempts ==> input.openWeather.replies(j).Failure?)
             || !input.weatherAPI.admitted
             || (forall j :: 0 <= j < Resilience.Attempts ==> input.weatherAPI.replies(j).Failure?)
    ensures CityWrites(city, input) == []
  {
    if !input.openWeather.admitted || forall j :: 0 <= j < Resilience.Attempts ==> input.openWeather.replies(j).Failure? {
      NoPayloadWhenAllFail(input.openWeather);
    } else {
      NoPayloadWhenAllFail(input.weatherAPI);
    }
  }

  /** A city with the nil id is never written, even when both fetches succeed. */
  lemma NilCityWritesNothing(city: City, input: CityInput)
    requires city.id == NilUuid
    ensures CityWrites(city, input) == []
  {
  }

  /**
   * When both fetches succeed for a city with a real id: raw OpenWeatherMap,
   * raw WeatherAPI, the aggregate, then Commit, inside one transaction; the
   * aggregate carries the city's id and the truncated mean humidity.
   */
  lemma BothFetchedWriteOrder(city: City, input: CityInput, ow: OpenWeatherCurrent, wa: WeatherAPICurrent)
    requires city.id != NilUuid
    requires FinalPayload(input.openWeather) == Some(ow) && FinalPayload(input.weatherAPI) == Some(wa)
    requires input.inserts == InsertResults(true, true, true)
    ensures var owRow := OpenWeatherRow(city, ow, input.timeNow);
            var waRow := WeatherAPIRow(city, wa, input.timeNow);
            var agg := Aggregate(city, owRow, waRow);
      && CityWrites(city, input) == [BeginTx, Insert(Raw(owRow)), Insert(Raw(waRow)), Insert(Aggregated(agg)), Commit]
      && owRow.source == "OpenWeatherMap" && waRow.source == "WeatherAPI"
      && owRow.cityId == waRow.cityId == agg.cityId == city.id
      && owRow.createdAt == waRow.createdAt == input.timeNow
      && agg.humidity == Half(ow.humidity + wa.humidity)
  {
  }

  /**
   * Every write path opens one transaction and ends with its single Commit.
   * All three inserts are made, and each failed insert is followed by a
   * Rollback. The Commit still comes after any rollback.
   */
  lemma CommitFollowsRollback(city: City, input: CityInput)
    requires CityWrites(city, input) != []
    ensures var w := CityWrites(city, input);
      && w[0] == BeginTx && w[|w| - 1] == Commit
      && Count(w, BeginKind) == 1 && Count(w, CommitKind) == 1
      && Count(w, InsertKind) == 3
      && Count(w, RollbackKind) == FailedInserts(input.inserts)
      && (forall i :: 0 <= i < |w| && w[i] == Rollback ==> 0 < i && w[i - 1].Insert?)
  {
    var ow := OpenWeatherFetched(city, input.openWeather, input.timeNow);
    var wa := WeatherAPIFetched(city, input.weatherAPI, input.timeNow);
    TxCounts(city, ow, wa, input.inserts);
    TxOrder(city, ow, wa, input.inserts);
  }

  /** For non-negative readings the aggregate humidity lies between the two and is their floor mean. */
  lemma AggregateHumidityIsMean(city: City, ow: WeatherRow, wa: WeatherRow)
    requires 0 <= ow.humidity && 0 <= wa.humidity
    ensures var h := Aggregate(city, ow, wa).humidity;
      && 2 * h <= ow.humidity + wa.humidity <= 2 * h + 1
      && (h >= ow.humidity || h >= wa.humidity)
      && (h <= ow.humidity || h <= wa.humidity)
  {
  }

  /** The kind of a database call, to count calls by. */
  datatype CallKind = BeginKind | InsertKind | RollbackKind | CommitKind

  function KindOf(c: DbCall): CallKind {
    match c
    case BeginTx => BeginKind
    case Insert(_) => InsertKind
    case Rollback => RollbackKind
    case Commit => CommitKind
  }

  /** The number of calls of kind `k` in a log. */
  function Count(log: seq<DbCall>, k: CallKind): nat {
    if log == [] then 0 else Count(log[..|log| - 1], k) + if KindOf(log[|log| - 1]) == k then 1 else 0
  }

  lemma {:induction false} CountAppend(a: seq<DbCall>, b: seq<DbCall>, k: CallKind)
    ensures Count(a + b, k) == Count(a, k) + Count(b, k)
    decreases |b|
  {
    if b != [] {
      assert (a + b)[..|a + b| - 1] == a + b[..|b| - 1];
      assert (a + b)[|a + b| - 1] == b[|b| - 1];
      CountAppend(a, b[..|b| - 1], k);
    } else {
      assert a + b == a;
    }
  }

  lemma CountOne(c: DbCall, k: CallKind)
    ensures Count([c], k) == if KindOf(c) == k then 1 else 0
  {
    assert [c][..0] == [];
  }

  /** One save holds one insert, and one rollback exactly when the insert failed. */
  lemma CountSave(row: Row, ok: bool, k: CallKind)
    ensures Count(Save(row, ok), k) ==
      (if k == InsertKind then 1 else 0) + (if k == RollbackKind && !ok then 1 else 0)
  {
    CountOne(Insert(row), k);
    if !ok {
      CountOne(Rollback, k);
      CountAppend([Insert(row)], [Rollback], k);
    } else {
      assert Save(row, ok) == [Insert(row)];
    }
  }

  /** A city's transaction holds one BeginTx, three inserts, one Rollback per failed insert and one Commit. */
  lemma TxCounts(city: City, ow: WeatherRow, wa: WeatherRow, inserts: InsertResults)
    ensures var w := TxWrites(city, ow, wa, inserts);
      && Count(w, BeginKind) == 1 && Count(w, CommitKind) == 1
      && Count(w, InsertKind) == 3
      && Count(w, RollbackKind) == FailedInserts(inserts)
  {
    SavesCounts(Raw(ow), Raw(wa), Aggregated(Aggregate(city, ow, wa)), inserts);
  }

  /** The counts of a transaction that saves rows `r1`, `r2`, `r3` with the given insert results. */
  lemma SavesCounts(r1: Row, r2: Row, r3: Row, inserts: InsertResults)
    ensures var w := [BeginTx] + Save(r1, inserts.openWeatherRaw) + Save(r2, inserts.weatherAPIRaw)
                     + Save(r3, inserts.aggregate) + [Commit];
      && Count(w, BeginKind) == 1 && Count(w, CommitKind) == 1
      && Count(w, InsertKind) == 3
      && Count(w, RollbackKind) == FailedInserts(inserts)
  {
    SavesCount(r1, r2, r3, inserts, BeginKind);
    SavesCount(r1, r2, r3, inserts, CommitKind);
    SavesCount(r1, r2, r3, inserts, InsertKind);
    SavesCount(r1, r2, r3, inserts, RollbackKind);
  }

  lemma SavesCount(r1: Row, r2: Row, r3: Row, inserts: InsertResults, k: CallKind)
    ensures Count([BeginTx] + Save(r1, inserts.openWeatherRaw) + Save(r2, inserts.weatherAPIRaw)
                  + Save(r3, inserts.aggregate) + [Commit], k)
      == (if k == BeginKind || k == CommitKind then 1 else 0)
         + (if k == InsertKind then 3 else 0)
         + (if k == RollbackKind then FailedInserts(inserts) else 0)
  {
    CountFive([BeginTx], Save(r1, inserts.openWeatherRaw), Save(r2, inserts.weatherAPIRaw),
      Save(r3, inserts.aggregate), [Commit], k);
    CountOne(BeginTx, k);
    CountOne(Commit, k);
    CountSave(r1, inserts.openWeatherRaw, k);
    CountSave(r2, inserts.weatherAPIRaw, k);
    CountSave(r3, inserts.aggregate, k);
  }

  /** Counts add up over the five parts of a transaction. */
  lemma CountFive(a: seq<DbCall>, b: seq<DbCall>, c: seq<DbCall>, d: seq<DbCall>, e: seq<DbCall>, k: CallKind)
    ensures Count(a + b + c + d + e, k) == Count(a, k) + Count(b, k) + Count(c, k) + Count(d, k) + Count(e, k)
  {
    CountAppend(a, b, k);
    CountAppend(a + b, c, k);
    CountAppend(a + b + c, d, k);
    CountAppend(a + b + c + d, e, k);
  }

  /**
   * The order of a city's transaction: each insert in its place, the call
   * after it a Rollback exactly when it failed, and no Rollback anywhere else.
   */
  lemma TxOrder(city: City, ow: WeatherRow, wa: WeatherRow, inserts: InsertResults)
    ensures var w := TxWrites(city, ow, wa, inserts);
      && (forall i :: 0 <= i < |w| && w[i] == Rollback ==> 0 < i && w[i - 1].Insert?)
      && w[1] == Insert(Raw(ow)) && (w[2] == Rollback <==> !inserts.openWeatherRaw)
      && (var j := if inserts.openWeatherRaw then 2 else 3;
          w[j] == Insert(Raw(wa)) && (w[j + 1] == Rollback <==> !inserts.weatherAPIRaw))
      && (var j := |w| - if inserts.aggregate then 2 else 3;
          w[j] == Insert(Aggregated(Aggregate(city, ow, wa))) && (w[j + 1] == Rollback <==> !inserts.aggregate))
  {
    var s1 := Save(Raw(ow), inserts.openWeatherRaw);
    var s2 := Save(Raw(wa), inserts.weatherAPIRaw);
    var s3 := Save(Aggregated(Aggregate(city, ow, wa)), inserts.aggregate);
    assert TxWrites(city, ow, wa, inserts) == [BeginTx] + s1 + s2 + s3 + [Commit];
  }

  /** The number of cities in the sweep whose two records were both filled. */
  function FilledCities(cities: seq<City>, inputs: nat -> CityInput): nat {
    if cities == [] then 0
    else
      var i := |cities| - 1;
      FilledCities(cities[..i], inputs) + if CityWrites(cities[i], inputs(i)) != [] then 1 else 0
  }

  /** Processing the (i+1)-th city appends its writes to those of the first i. */
  lemma SweepWritesSnoc(cities: seq<City>, i: nat, inputs: nat -> CityInput)
    requires i < |cities|
    ensures SweepWrites(cities[..i + 1], inputs) == SweepWrites(cities[..i], inputs) + CityWrites(cities[i], inputs(i))
  {
    assert cities[..i + 1][..i] == cities[..i];
  }

  /** Appending to a log extends what it was equal to. */
  lemma AppendStep<T>(start: seq<T>, before: seq<T>, after: seq<T>, done: seq<T>, w: seq<T>)
    requires before == start + done
    requires after == before + w
    ensures after == start + (done + w)
  {
  }

  /** The five appends of one transaction, regrouped. */
  lemma AppendFive<T>(log: seq<T>, a: seq<T>, b: seq<T>, c: seq<T>, d: seq<T>, e: seq<T>)
    ensures ((((log + a) + b) + c) + d) + e == log + (a + b + c + d + e)
  {
  }

  /** A sweep commits exactly once per city whose two fetches both filled their records. */
  lemma {:induction false} SweepCommitsOncePerFilledCity(cities: seq<City>, inputs: nat -> CityInput)
    ensures Count(SweepWrites(cities, inputs), CommitKind) == FilledCities(cities, inputs)
  {
    if cities != [] {
      var i := |cities| - 1;
      var w := CityWrites(cities[i], inputs(i));
      SweepCommitsOncePerFilledCity(cities[..i], inputs);
      CountAppend(SweepWrites(cities[..i], inputs), w, CommitKind);
      if w != [] {
        var input := inputs(i);
        TxCounts(cities[i], OpenWeatherFetched(cities[i], input.openWeather, input.timeNow),
          WeatherAPIFetched(cities[i], input.weatherAPI, input.timeNow), input.inserts);
      }
    }
  }

  /**
   * The end-to-end reading for Paris, in exact arithmetic: OpenWeatherMap
   * reports 10.0°C, 80% and 3.0 m/s, WeatherAPI 12.0°C, 70% and 5.0 km/h
   * (1.39 m/s once rounded); the aggregate is 11.0°C, 75% and 2.2 m/s.
   */
  lemma ParisAggregate(paris: City, timeNow: Time)
    ensures var ow := OpenWeatherRow(paris, OpenWeatherCurrent(10.0, 80, 3.0), timeNow);
            var wa := WeatherAPIRow(paris, WeatherAPICurrent(12.0, 70, 5.0), timeNow);
            var agg := Aggregate(paris, ow, wa);
      && wa.windSpeed == 1.39
      && agg.temperature == 11.0 && agg.humidity == 75 && agg.windSpeed == 2.2
  {
    assert Round(5.0 / 3.6 * 100.0) == 139;
    assert Round((3.0 + 1.39) / 2.0 * 100.0) == 220;
  }
}
