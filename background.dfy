/** The polling task (`BackgroundTask`, src/background/mod.rs): once a
    minute it obtains a credential, fetches the plant report, the UV index
    and the temperature, stores one row in `solar_data_tsdb`, and, when a
    home gateway is configured, forwards the reading with three averages.
    Every external step is given by its outcome; a panic is the step at which
    it happens. */
module Background {
  import opened Common
  import opened GoodWeTypes
  import Db
  import GoodWe
  import Weather

  /** The seconds slept between two cycles. */
  const SleepSeconds: nat := 60

  const IngestPath: string := "/v1/ingest/solar"

  /** The steps of one cycle, in the order they run. */
  datatype Step = Login | SolarFetch | UvFetch | WeatherFetch | Insert | Averages | Forward

  const Pipeline: seq<Step> := [Login, SolarFetch, UvFetch, WeatherFetch, Insert, Averages, Forward]

  /** `BackgroundTaskError`. */
  datatype BackgroundTaskError =
    | SolarApi(solar: GoodWeError)
    | WeatherApi(weather: Weather.WeatherError)
    | DatabaseFailure(message: string)
    | HttpFailure(message: string)
    | UnknownFailure(message: string)

  /** What `catch_unwind` hands back for one cycle: the cycle's own result,
      or the fact that it panicked. */
  datatype FutureResult = Finished(outcome: Outcome<BackgroundTaskError>) | Panicked

  datatype SolarIngestAvgPayload = SolarIngestAvgPayload(mins15: Option<F64>, mins60: Option<F64>, mins180: Option<F64>)

  datatype SolarIngestPayload = SolarIngestPayload(
    currentKwh: F64,
    averageKwh: SolarIngestAvgPayload,
    uvLevel: Option<F64>)

  /** The POST to the home gateway. */
  datatype ForwardRequest = ForwardRequest(url: string, apiKey: string, payload: SolarIngestPayload)

  /** The outcomes of the external steps of one cycle. */
  datatype CycleOutcomes = CycleOutcomes(
    token: GoodWe.TokenCallOutcomes,                        // get_new_or_cached_login_data
    solar: Result<PlantDetailsResponse, GoodWeError>,       // get_solar_data
    uv: Result<Weather.UvDocument, Weather.WeatherError>,   // the UV document, fetched and decoded
    weather: Result<Weather.WeatherDetails, Weather.WeatherError>, // get_weather_details
    insert: Result<Timestamp, string>,                      // INSERT INTO solar_data_tsdb: the row's time
    gatewayBase: Option<string>,                            // HOME_GATEWAY_BASE_URL
    gatewayKey: Option<string>,                             // HOME_GATEWAY_API_KEY
    avg15: Result<Option<F64>, BackgroundTaskError>,        // get_average_for_last_n_minutes(15, ..)
    avg60: Result<Option<F64>, BackgroundTaskError>,
    avg180: Result<Option<F64>, BackgroundTaskError>,
    post: Outcome<string>,                                  // sending the forward request
    panicAt: Option<Step>)                                  // the step at whose start the cycle panics

  /** What one cycle did: its result, both tables afterwards, the requests
      it sent, and the steps it began. */
  datatype CycleEffect = CycleEffect(
    result: FutureResult,
    tokens: seq<TokenRow>,
    rows: seq<SolarRow>,
    solarRequest: Option<GoodWe.HttpRequest>,
    forward: Option<ForwardRequest>,
    trace: seq<Step>)

  /** The UV index kept by the cycle: any error becomes `None`. */
  function UvLevel(o: CycleOutcomes): (r: Option<F64>)
    ensures o.uv.Failure? ==> r.None?
    ensures r.Some? ==> o.uv.Success?
    ensures r.Some? && o.uv.Success? ==>
              exists k :: 0 <= k < |o.uv.value.location| && o.uv.value.location[k].name == Weather.PerthName && r.value == o.uv.value.location[k].index
  {
    Weather.GetUvLevel(o.uv, Weather.PerthName).Ok()
  }

  /** The temperature kept by the cycle: any error becomes `None`. */
  function Temperature(o: CycleOutcomes): (r: Option<F64>)
    ensures r.None? <==> o.weather.Failure?
    ensures r.Some? ==> r.value == o.weather.value.data.temp
  {
    if o.weather.Success? then Some(o.weather.value.data.temp) else None
  }

  /** `HOME_GATEWAY_API_KEY`, or the empty string when it is unset. */
  function ApiKey(o: CycleOutcomes): (k: string)
    ensures o.gatewayKey.Some? ==> k == o.gatewayKey.value
    ensures o.gatewayKey.None? ==> k == ""
  {
    if o.gatewayKey.Some? then o.gatewayKey.value else ""
  }

  /** One run of the cycle body of `start`. */
  function CycleSpec(powerstationId: string, tokens: seq<TokenRow>, rows: seq<SolarRow>, o: CycleOutcomes): (e: CycleEffect)
    ensures |e.trace| <= |Pipeline| && e.trace == Pipeline[..|e.trace|]
    ensures e.rows == rows || (o.solar.Success? && o.insert.Success? && e.rows == rows + [NewRow(o)])
    ensures e.tokens == tokens || (o.panicAt != Some(Login) && e.tokens == GoodWe.NewOrCachedSpec(tokens, o.token).1)
    ensures e.forward.Some? ==> e.rows != rows
  {
    if o.panicAt == Some(Login) then CycleEffect(Panicked, tokens, rows, None, None, [])
    else AfterLogin(powerstationId, GoodWe.NewOrCachedSpec(tokens, o.token), rows, o)
  }

  /** The cycle once the credential lookup has run. */
  function AfterLogin(powerstationId: string, cache: (Result<LoginData, GoodWeError>, seq<TokenRow>),
                      rows: seq<SolarRow>, o: CycleOutcomes): (e: CycleEffect)
    requires o.panicAt != Some(Login)
    ensures e.tokens == cache.1
    ensures 1 <= |e.trace| <= 7 && e.trace == Pipeline[..|e.trace|]
    ensures e.solarRequest.Some? <==> |e.trace| >= 2
    ensures e.solarRequest.Some? ==> cache.0.Success? && e.solarRequest.value == GoodWe.SolarDataRequest(powerstationId, cache.0.value)
    ensures |e.trace| >= 5 <==> cache.0.Success? && o.solar.Success? && LatePanic(o)
    ensures e.rows == rows || (|e.trace| >= 5 && o.insert.Success? && e.rows == rows + [NewRow(o)])
    ensures |e.trace| >= 5 && o.insert.Success? ==> e.rows == rows + [NewRow(o)]
    ensures e.result == Finished(Pass) ==> |e.trace| >= 5
    ensures e.forward.Some? ==> |e.trace| >= 5 && o.insert.Success? && IsForwardOf(o, e.forward.value)
    ensures cache.0.Success? && o.solar.Success? && o.insert.Success? && ForwardDue(o) ==> e.forward.Some?
  {
    var (login, tokens1) := cache;
    if login.Failure? then CycleEffect(Finished(Fail(SolarApi(login.error))), tokens1, rows, None, None, Pipeline[..1])
    else if o.panicAt == Some(SolarFetch) then CycleEffect(Panicked, tokens1, rows, None, None, Pipeline[..1])
    else AfterReport(tokens1, rows, GoodWe.SolarDataRequest(powerstationId, login.value), o)
  }

  /** The cycle once the plant report has been requested. */
  function AfterReport(tokens1: seq<TokenRow>, rows: seq<SolarRow>, request: GoodWe.HttpRequest, o: CycleOutcomes): (e: CycleEffect)
    requires o.panicAt != Some(Login) && o.panicAt != Some(SolarFetch)
    ensures e.tokens == tokens1 && e.solarRequest == Some(request)
    ensures 2 <= |e.trace| <= 7 && e.trace == Pipeline[..|e.trace|]
    ensures |e.trace| >= 5 <==> o.solar.Success? && LatePanic(o)
    ensures e.rows == rows || (|e.trace| >= 5 && o.insert.Success? && e.rows == rows + [NewRow(o)])
    ensures |e.trace| >= 5 && o.insert.Success? ==> e.rows == rows + [NewRow(o)]
    ensures e.result == Finished(Pass) ==> |e.trace| >= 5
    ensures e.forward.Some? ==> |e.trace| >= 5 && o.insert.Success? && IsForwardOf(o, e.forward.value)
    ensures o.solar.Success? && o.insert.Success? && ForwardDue(o) ==> e.forward.Some?
  {
    if o.solar.Failure? then
      CycleEffect(Finished(Fail(SolarApi(o.solar.error))), tokens1, rows, Some(request), None, Pipeline[..2])
    else if o.panicAt == Some(UvFetch) then CycleEffect(Panicked, tokens1, rows, Some(request), None, Pipeline[..2])
    else if o.panicAt == Some(WeatherFetch) then CycleEffect(Panicked, tokens1, rows, Some(request), None, Pipeline[..3])
    else if o.panicAt == Some(Insert) then CycleEffect(Panicked, tokens1, rows, Some(request), None, Pipeline[..4])
    else if o.insert.Failure? then
      CycleEffect(Finished(Fail(DatabaseFailure(o.insert.error))), tokens1, rows, Some(request), None, Pipeline[..5])
    else AfterInsert(tokens1, rows + [NewRow(o)], o.solar.value.data.kpi.pac, UvLevel(o), Some(request), o)
  }

  /** The forward the cycle sends: to the gateway's ingest path, with the
      key or the empty string, the report's current output, the three
      averages in order and the UV index kept. */
  predicate IsForwardOf(o: CycleOutcomes, f: ForwardRequest)
  {
    && o.gatewayBase.Some? && o.solar.Success?
    && o.avg15.Success? && o.avg60.Success? && o.avg180.Success?
    && f == ForwardRequest(o.gatewayBase.value + IngestPath, ApiKey(o),
              SolarIngestPayload(o.solar.value.data.kpi.pac,
                SolarIngestAvgPayload(o.avg15.value, o.avg60.value, o.avg180.value), UvLevel(o)))
  }

  /** Everything a forward needs is there and nothing panics. */
  predicate ForwardDue(o: CycleOutcomes)
  {
    o.gatewayBase.Some? && o.avg15.Success? && o.avg60.Success? && o.avg180.Success? && o.panicAt.None?
  }

  /** A panic, if any, strikes only after the insert. */
  predicate LatePanic(o: CycleOutcomes)
  {
    o.panicAt.None? || o.panicAt.value.Averages? || o.panicAt.value.Forward?
  }

  /** The row the cycle stores. */
  function NewRow(o: CycleOutcomes): (r: SolarRow)
    requires o.solar.Success? && o.insert.Success?
    ensures r.time == o.insert.value && r.currentKwh == o.solar.value.data.kpi.pac && r.rawData == o.solar.value
    ensures r.uvLevel.None? <==> Weather.GetUvLevel(o.uv, Weather.PerthName).Failure?
    ensures r.temperature.None? <==> o.weather.Failure?
  {
    SolarRow(o.insert.value, o.solar.value.data.kpi.pac, o.solar.value, UvLevel(o), Temperature(o))
  }

  /** The cycle once its row is stored: the optional forward. */
  function AfterInsert(tokens1: seq<TokenRow>, rows1: seq<SolarRow>, kwh: F64, uvLevel: Option<F64>,
                       request: Option<GoodWe.HttpRequest>, o: CycleOutcomes): (e: CycleEffect)
    requires LatePanic(o)
    ensures e.tokens == tokens1 && e.rows == rows1 && e.solarRequest == request
    ensures 5 <= |e.trace| <= 7 && e.trace == Pipeline[..|e.trace|]
    ensures e.forward.Some? ==>
              && o.gatewayBase.Some? && o.avg15.Success? && o.avg60.Success? && o.avg180.Success?
              && e.forward.value == ForwardRequest(o.gatewayBase.value + IngestPath, ApiKey(o),
                   SolarIngestPayload(kwh, SolarIngestAvgPayload(o.avg15.value, o.avg60.value, o.avg180.value), uvLevel))
    ensures (o.gatewayBase.Some? && o.avg15.Success? && o.avg60.Success? && o.avg180.Success? && o.panicAt.None?)
              ==> e.forward.Some?
  {
    assert Pipeline[..7] == Pipeline;
    if o.gatewayBase.None? then CycleEffect(Finished(Pass), tokens1, rows1, request, None, Pipeline[..5])
    else if o.panicAt == Some(Averages) then CycleEffect(Panicked, tokens1, rows1, request, None, Pipeline[..5])
    else if o.avg15.Failure? then CycleEffect(Finished(Fail(o.avg15.error)), tokens1, rows1, request, None, Pipeline[..6])
    else if o.avg60.Failure? then CycleEffect(Finished(Fail(o.avg60.error)), tokens1, rows1, request, None, Pipeline[..6])
    else if o.avg180.Failure? then CycleEffect(Finished(Fail(o.avg180.error)), tokens1, rows1, request, None, Pipeline[..6])
    else if o.panicAt == Some(Forward) then CycleEffect(Panicked, tokens1, rows1, request, None, Pipeline[..6])
    else
      var payload := SolarIngestPayload(kwh, SolarIngestAvgPayload(o.avg15.value, o.avg60.value, o.avg180.value), uvLevel);
      var forward := Some(ForwardRequest(o.gatewayBase.value + IngestPath, ApiKey(o), payload));
      if o.post.Fail? then CycleEffect(Finished(Fail(HttpFailure(o.post.error))), tokens1, rows1, request, forward, Pipeline)
      else CycleEffect(Finished(Pass), tokens1, rows1, request, forward, Pipeline)
  }

  /** The cycle gets as far as the insert: the credential and the plant
      report were obtained and no panic struck before the insert. */
  predicate ReachesInsert(tokens: seq<TokenRow>, o: CycleOutcomes)
  {
    && LatePanic(o)
    && GoodWe.NewOrCachedSpec(tokens, o.token).0.Success?
    && o.solar.Success?
  }

  // ---------------------------------------------------------------------
  // Properties of one cycle

  /** The insert is the fifth step of the pipeline. */
  lemma InsertIsFifth(k: nat)
    requires k <= |Pipeline|
    ensures Insert in Pipeline[..k] <==> k >= 5
  {
    assert Pipeline[4] == Insert;
    if k < 5 {
      assert forall j :: 0 <= j < k ==> Pipeline[..k][j] != Insert;
    }
  }

  /** The steps begun are always a prefix of the pipeline; the insert is
      among them exactly when the cycle reaches it, and a row is added
      exactly when it was begun and succeeded. */
  lemma TraceFollowsPipeline(powerstationId: string, tokens: seq<TokenRow>, rows: seq<SolarRow>, o: CycleOutcomes)
    ensures var e := CycleSpec(powerstationId, tokens, rows, o);
            && |e.trace| <= |Pipeline| && e.trace == Pipeline[..|e.trace|]
            && (Insert in e.trace <==> ReachesInsert(tokens, o))
            && (|e.rows| == |rows| + 1 <==> Insert in e.trace && o.insert.Success?)
  {
    var e := CycleSpec(powerstationId, tokens, rows, o);
    InsertIsFifth(|e.trace|);
  }

  /** A failed credential lookup or plant report ends the cycle before the
      insert: no row, no forward, and the cycle does not succeed. */
  lemma EarlyFailureInsertsNothing(powerstationId: string, tokens: seq<TokenRow>, rows: seq<SolarRow>, o: CycleOutcomes)
    requires GoodWe.NewOrCachedSpec(tokens, o.token).0.Failure? || o.solar.Failure?
    ensures var e := CycleSpec(powerstationId, tokens, rows, o);
            e.rows == rows && e.forward.None? && e.result != Finished(Pass)
  {
  }

  /** Each cycle adds at most one row to each table and removes nothing. */
  lemma CycleAppendsAtMostOne(powerstationId: string, tokens: seq<TokenRow>, rows: seq<SolarRow>, o: CycleOutcomes)
    ensures var e := CycleSpec(powerstationId, tokens, rows, o);
            && (e.rows == rows || (|e.rows| == |rows| + 1 && e.rows[..|rows|] == rows))
            && (e.tokens == tokens || (|e.tokens| == |tokens| + 1 && e.tokens[..|tokens|] == tokens))
  {
    GoodWe.TableGrowth(tokens, o.token);
    var e := CycleSpec(powerstationId, tokens, rows, o);
    if e.rows != rows {
      assert e.rows[..|rows|] == rows;
    }
    if e.tokens != tokens {
      assert e.tokens[..|tokens|] == tokens;
    }
  }

  /** The stored row, once the cycle reaches the insert and the insert
      succeeds: the database's time stamp, `pac` as the current output, the
      whole report, and the UV index and temperature, each `None` exactly
      when its own fetch failed. UV and weather failures do not stop the
      insert. */
  lemma InsertedRow(powerstationId: string, tokens: seq<TokenRow>, rows: seq<SolarRow>, o: CycleOutcomes)
    requires ReachesInsert(tokens, o) && o.insert.Success?
    ensures var e := CycleSpec(powerstationId, tokens, rows, o);
            && |e.rows| == |rows| + 1 && e.rows[..|rows|] == rows
            && var row := e.rows[|rows|];
            && row.time == o.insert.value
            && row.currentKwh == o.solar.value.data.kpi.pac
            && row.rawData == o.solar.value
            && (row.uvLevel.None? <==> Weather.GetUvLevel(o.uv, Weather.PerthName).Failure?)
            && (row.uvLevel.Some? ==> row.uvLevel.value == Weather.GetUvLevel(o.uv, Weather.PerthName).value)
            && (row.temperature.None? <==> o.weather.Failure?)
            && (row.temperature.Some? ==> row.temperature.value == o.weather.value.data.temp)
  {
    var e := CycleSpec(powerstationId, tokens, rows, o);
    assert e.rows == rows + [NewRow(o)];
    assert e.rows[..|rows|] == rows;
  }

  /** Nothing after the insert (the gateway settings, the averages, the
      forward, a late panic) changes what the cycle stored. */
  lemma LateOutcomesKeepRow(powerstationId: string, tokens: seq<TokenRow>, rows: seq<SolarRow>, o: CycleOutcomes,
                            gatewayBase: Option<string>, gatewayKey: Option<string>,
                            avg15: Result<Option<F64>, BackgroundTaskError>, avg60: Result<Option<F64>, BackgroundTaskError>,
                            avg180: Result<Option<F64>, BackgroundTaskError>, post: Outcome<string>, latePanic: Option<Step>)
    requires ReachesInsert(tokens, o)
    requires latePanic.None? || latePanic.value.Averages? || latePanic.value.Forward?
    ensures var o2 := o.(gatewayBase := gatewayBase, gatewayKey := gatewayKey, avg15 := avg15,
                         avg60 := avg60, avg180 := avg180, post := post, panicAt := latePanic);
            && CycleSpec(powerstationId, tokens, rows, o2).rows == CycleSpec(powerstationId, tokens, rows, o).rows
            && CycleSpec(powerstationId, tokens, rows, o2).tokens == CycleSpec(powerstationId, tokens, rows, o).tokens
  {
    var o2 := o.(gatewayBase := gatewayBase, gatewayKey := gatewayKey, avg15 := avg15,
                 avg60 := avg60, avg180 := avg180, post := post, panicAt := latePanic);
    assert o2.token == o.token && o2.solar == o.solar && o2.insert == o.insert;
    assert UvLevel(o2) == UvLevel(o) && Temperature(o2) == Temperature(o);
    assert ReachesInsert(tokens, o2);
    if o.insert.Success? {
      assert NewRow(o2) == NewRow(o);
    }
  }

  /** A forward is sent only when the gateway is configured and the row was
      stored: to the gateway's ingest path, with the key or the empty
      string, carrying the stored output and UV index and the three
      averages in order. With the gateway set and the averages available it
      is always sent. */
  lemma ForwardMatchesRow(powerstationId: string, tokens: seq<TokenRow>, rows: seq<SolarRow>, o: CycleOutcomes)
    ensures var e := CycleSpec(powerstationId, tokens, rows, o);
            && (e.forward.Some? ==>
                  && o.gatewayBase.Some? && o.avg15.Success? && o.avg60.Success? && o.avg180.Success?
                  && e.forward.value.url == o.gatewayBase.value + "/v1/ingest/solar"
                  && (o.gatewayKey.None? ==> e.forward.value.apiKey == "")
                  && (o.gatewayKey.Some? ==> e.forward.value.apiKey == o.gatewayKey.value)
                  && |e.rows| == |rows| + 1
                  && e.forward.value.payload.currentKwh == e.rows[|rows|].currentKwh
                  && e.forward.value.payload.uvLevel == e.rows[|rows|].uvLevel
                  && e.forward.value.payload.averageKwh
                       == SolarIngestAvgPayload(o.avg15.value, o.avg60.value, o.avg180.value))
            && (ReachesInsert(tokens, o) && o.insert.Success? && o.gatewayBase.Some?
                && o.avg15.Success? && o.avg60.Success? && o.avg180.Success? && o.panicAt.None?
                ==> e.forward.Some?)
  {
  }

  /** The portal is asked for the report with the credential the cache
      returned, and only after the lookup succeeded. */
  lemma SolarRequestCarriesCredential(powerstationId: string, tokens: seq<TokenRow>, rows: seq<SolarRow>, o: CycleOutcomes)
    ensures var e := CycleSpec(powerstationId, tokens, rows, o);
            var login := GoodWe.NewOrCachedSpec(tokens, o.token).0;
            && (e.solarRequest.Some? <==> SolarFetch in e.trace)
            && (e.solarRequest.Some? ==>
                  login.Success? && e.solarRequest.value == GoodWe.SolarDataRequest(powerstationId, login.value))
  {
    var e := CycleSpec(powerstationId, tokens, rows, o);
    assert Pipeline[1] == SolarFetch;
    if |e.trace| < 2 {
      assert forall j :: 0 <= j < |e.trace| ==> e.trace[j] != SolarFetch;
    }
  }

  // ---------------------------------------------------------------------
  // The loop

  function Last<T>(s: seq<T>): T
    requires s != []
  {
    s[|s| - 1]
  }

  /** The `cached_token` table after the given cycles. */
  function TokensAfter(tokens: seq<TokenRow>, effects: seq<CycleEffect>): seq<TokenRow>
  {
    if effects == [] then tokens else Last(effects).tokens
  }

  /** The `solar_data_tsdb` table after the given cycles. */
  function RowsAfter(rows: seq<SolarRow>, effects: seq<CycleEffect>): seq<SolarRow>
  {
    if effects == [] then rows else Last(effects).rows
  }

  /** The effects of the cycles run on the given outcomes, one after the
      other, each starting from the tables the previous one left. */
  function Run(powerstationId: string, tokens: seq<TokenRow>, rows: seq<SolarRow>, envs: seq<CycleOutcomes>): (effects: seq<CycleEffect>)
    ensures |effects| == |envs|
    decreases |envs|
  {
    if envs == [] then []
    else
      var before := Run(powerstationId, tokens, rows, envs[..|envs| - 1]);
      before + [CycleSpec(powerstationId, TokensAfter(tokens, before), RowsAfter(rows, before), Last(envs))]
  }

  /** One more cycle extends the run by that cycle's effect. */
  lemma RunStep(powerstationId: string, tokens: seq<TokenRow>, rows: seq<SolarRow>, envs: seq<CycleOutcomes>, i: nat)
    requires i < |envs|
    ensures var before := Run(powerstationId, tokens, rows, envs[..i]);
            Run(powerstationId, tokens, rows, envs[..i + 1])
              == before + [CycleSpec(powerstationId, TokensAfter(tokens, before), RowsAfter(rows, before), envs[i])]
  {
    assert envs[..i + 1][..i] == envs[..i];
  }

  /** `longer` starts with `shorter`. */
  predicate Extends<T(==)>(longer: seq<T>, shorter: seq<T>)
  {
    |shorter| <= |longer| && longer[..|shorter|] == shorter
  }

  lemma ExtendsTransitive<T>(a: seq<T>, b: seq<T>, c: seq<T>)
    requires Extends(a, b) && Extends(b, c)
    ensures Extends(a, c)
  {
    assert a[..|c|] == a[..|b|][..|c|];
  }

  /** After a cycle both tables extend the original ones by at most n rows. */
  predicate GrewBy(e: CycleEffect, tokens: seq<TokenRow>, rows: seq<SolarRow>, n: nat)
  {
    && Extends(e.rows, rows) && |e.rows| <= |rows| + n
    && Extends(e.tokens, tokens) && |e.tokens| <= |tokens| + n
  }

  /** A cycle run on tables that extend the original ones by at most n rows
      leaves tables that extend them by at most n + 1 rows. */
  lemma GrowStep(powerstationId: string, tokens: seq<TokenRow>, rows: seq<SolarRow>,
                 t: seq<TokenRow>, r: seq<SolarRow>, o: CycleOutcomes, n: nat)
    requires Extends(r, rows) && |r| <= |rows| + n
    requires Extends(t, tokens) && |t| <= |tokens| + n
    ensures GrewBy(CycleSpec(powerstationId, t, r, o), tokens, rows, n + 1)
  {
    var e := CycleSpec(powerstationId, t, r, o);
    CycleAppendsAtMostOne(powerstationId, t, r, o);
    ExtendsTransitive(e.rows, r, rows);
    ExtendsTransitive(e.tokens, t, tokens);
  }

  /** When each cycle so far grew the tables by at most its position plus
      one, the tables after them extend the original ones by at most the
      number of cycles. */
  lemma GrewAfter(tokens: seq<TokenRow>, rows: seq<SolarRow>, effects: seq<CycleEffect>)
    requires forall k :: 0 <= k < |effects| ==> GrewBy(effects[k], tokens, rows, k + 1)
    ensures Extends(RowsAfter(rows, effects), rows) && |RowsAfter(rows, effects)| <= |rows| + |effects|
    ensures Extends(TokensAfter(tokens, effects), tokens) && |TokensAfter(tokens, effects)| <= |tokens| + |effects|
  {
    if effects == [] {
      assert rows[..|rows|] == rows && tokens[..|tokens|] == tokens;
    } else {
      assert GrewBy(effects[|effects| - 1], tokens, rows, |effects|);
    }
  }

  /** A later effect extends an earlier one by at most one row per table. */
  predicate GrewByOne(later: CycleEffect, earlier: CycleEffect)
  {
    && Extends(later.rows, earlier.rows) && |later.rows| <= |earlier.rows| + 1
    && Extends(later.tokens, earlier.tokens) && |later.tokens| <= |earlier.tokens| + 1
  }

  /** Appending leaves every prefix of the original sequence alone. */
  lemma PrefixOfAppend<T>(a: seq<T>, x: T, i: nat)
    requires i <= |a|
    ensures (a + [x])[..i] == a[..i]
  {
    assert forall j :: 0 <= j < i ==> (a + [x])[j] == a[j];
  }

  /** The first i effects of a run are the run of the first i outcomes. */
  lemma {:induction false} RunPrefix(powerstationId: string, tokens: seq<TokenRow>, rows: seq<SolarRow>, envs: seq<CycleOutcomes>, i: nat)
    requires i <= |envs|
    ensures Run(powerstationId, tokens, rows, envs)[..i] == Run(powerstationId, tokens, rows, envs[..i])
    decreases |envs|
  {
    if i < |envs| {
      var n := |envs| - 1;
      RunStep(powerstationId, tokens, rows, envs, n);
      assert envs[..n + 1] == envs;
      var before := Run(powerstationId, tokens, rows, envs[..n]);
      RunPrefix(powerstationId, tokens, rows, envs[..n], i);
      assert envs[..n][..i] == envs[..i];
      var last := CycleSpec(powerstationId, TokensAfter(tokens, before), RowsAfter(rows, before), envs[n]);
      assert Run(powerstationId, tokens, rows, envs) == before + [last];
      PrefixOfAppend(before, last, i);
    } else {
      assert envs[..i] == envs;
    }
  }

  /** Cycle k + 1 of a run starts from the tables cycle k left. */
  lemma NextCycle(powerstationId: string, tokens: seq<TokenRow>, rows: seq<SolarRow>, envs: seq<CycleOutcomes>, k: nat)
    requires k + 1 < |envs|
    ensures var effects := Run(powerstationId, tokens, rows, envs);
            effects[k + 1] == CycleSpec(powerstationId, effects[k].tokens, effects[k].rows, envs[k + 1])
  {
    var effects := Run(powerstationId, tokens, rows, envs);
    RunPrefix(powerstationId, tokens, rows, envs, k + 1);
    RunPrefix(powerstationId, tokens, rows, envs, k + 2);
    RunStep(powerstationId, tokens, rows, envs, k + 1);
    var before := Run(powerstationId, tokens, rows, envs[..k + 1]);
    assert effects[k] == Last(before) by {
      assert effects[..k + 1] == before;
    }
    assert effects[k + 1] == Run(powerstationId, tokens, rows, envs[..k + 2])[k + 1];
  }

  /** Cycle k + 1 keeps every row cycle k left and adds at most one to
      each table. */
  lemma CycleToCycle(powerstationId: string, tokens: seq<TokenRow>, rows: seq<SolarRow>, envs: seq<CycleOutcomes>, k: nat)
    requires k + 1 < |envs|
    ensures var effects := Run(powerstationId, tokens, rows, envs);
            GrewByOne(effects[k + 1], effects[k])
  {
    var effects := Run(powerstationId, tokens, rows, envs);
    NextCycle(powerstationId, tokens, rows, envs, k);
    CycleAppendsAtMostOne(powerstationId, effects[k].tokens, effects[k].rows, envs[k + 1]);
    KeptOrOneMore(effects[k + 1], effects[k]);
  }

  /** Tables that are kept or gain one row grew by at most one. */
  lemma KeptOrOneMore(next: CycleEffect, prev: CycleEffect)
    requires next.rows == prev.rows || (|next.rows| == |prev.rows| + 1 && next.rows[..|prev.rows|] == prev.rows)
    requires next.tokens == prev.tokens || (|next.tokens| == |prev.tokens| + 1 && next.tokens[..|prev.tokens|] == prev.tokens)
    ensures GrewByOne(next, prev)
  {
    assert prev.rows[..|prev.rows|] == prev.rows && prev.tokens[..|prev.tokens|] == prev.tokens;
  }

  /** The tables only grow across cycles: after k + 1 cycles each table
      extends the original by at most k + 1 rows, and each cycle keeps the
      tables the previous one left and adds at most one row to each. */
  lemma RunAppendOnly(powerstationId: string, tokens: seq<TokenRow>, rows: seq<SolarRow>, envs: seq<CycleOutcomes>)
    ensures forall k :: 0 <= k < |envs| ==> GrewBy(Run(powerstationId, tokens, rows, envs)[k], tokens, rows, k + 1)
    ensures forall k :: 0 <= k && k + 1 < |envs| ==>
              GrewByOne(Run(powerstationId, tokens, rows, envs)[k + 1], Run(powerstationId, tokens, rows, envs)[k])
  {
    RunGrowsFromStart(powerstationId, tokens, rows, envs);
    forall k | 0 <= k && k + 1 < |envs|
      ensures GrewByOne(Run(powerstationId, tokens, rows, envs)[k + 1], Run(powerstationId, tokens, rows, envs)[k])
    {
      CycleToCycle(powerstationId, tokens, rows, envs, k);
    }
  }

  /** After k + 1 cycles each table extends the original by at most k + 1
      rows. */
  lemma {:induction false} RunGrowsFromStart(powerstationId: string, tokens: seq<TokenRow>, rows: seq<SolarRow>, envs: seq<CycleOutcomes>)
    ensures forall k :: 0 <= k < |envs| ==> GrewBy(Run(powerstationId, tokens, rows, envs)[k], tokens, rows, k + 1)
    decreases |envs|
  {
    if envs != [] {
      var prefix := envs[..|envs| - 1];
      RunGrowsFromStart(powerstationId, tokens, rows, prefix);
      var before := Run(powerstationId, tokens, rows, prefix);
      GrewAfter(tokens, rows, before);
      var t, r := TokensAfter(tokens, before), RowsAfter(rows, before);
      GrowStep(powerstationId, tokens, rows, t, r, Last(envs), |before|);
      var e := CycleSpec(powerstationId, t, r, Last(envs));
      assert Run(powerstationId, tokens, rows, envs) == before + [e];
    }
  }

  /** What `start` reports for the cycles run so far: each cycle's result
      and forward, and whether it logged an error. */
  predicate Reports(effects: seq<CycleEffect>, results: seq<FutureResult>, forwards: seq<Option<ForwardRequest>>,
                    errorLogged: seq<bool>)
  {
    && |results| == |effects| && |forwards| == |effects| && |errorLogged| == |effects|
    && (forall k :: 0 <= k < |effects| ==> results[k] == effects[k].result && forwards[k] == effects[k].forward)
    && (forall k :: 0 <= k < |effects| ==> (errorLogged[k] <==> results[k].Panicked?))
  }

  lemma ReportsExtend(effects: seq<CycleEffect>, results: seq<FutureResult>, forwards: seq<Option<ForwardRequest>>,
                      errorLogged: seq<bool>, e: CycleEffect)
    requires Reports(effects, results, forwards, errorLogged)
    ensures Reports(effects + [e], results + [e.result], forwards + [e.forward], errorLogged + [e.result.Panicked?])
  {
  }

  class BackgroundTask {
    const pool: Db.Database
    const solarApi: GoodWe.GoodWeSemsApi

    constructor (pool: Db.Database, solarApi: GoodWe.GoodWeSemsApi)
      ensures this.pool == pool && this.solarApi == solarApi
    {
      this.pool := pool;
      this.solarApi := solarApi;
    }

    /** One cycle: the credential comes through the portal client's cache
        (its own database), the row goes to the task's pool. The two may be
        the same database. */
    method RunCycle(o: CycleOutcomes) returns (result: FutureResult, solarRequest: Option<GoodWe.HttpRequest>,
                                              forward: Option<ForwardRequest>, trace: seq<Step>)
      modifies pool, solarApi.db
      ensures var e := CycleSpec(solarApi.powerstationId, old(solarApi.db.cachedToken), old(pool.solarDataTsdb), o);
              && result == e.result && solarRequest == e.solarRequest && forward == e.forward && trace == e.trace
              && solarApi.db.cachedToken == e.tokens && pool.solarDataTsdb == e.rows
      ensures pool != solarApi.db ==> pool.cachedToken == old(pool.cachedToken)
      ensures pool != solarApi.db ==> solarApi.db.solarDataTsdb == old(solarApi.db.solarDataTsdb)
    {
      solarRequest, forward := None, None;
      if o.panicAt == Some(Login) {
        return Panicked, solarRequest, forward, [];
      }
      var login, _ := solarApi.GetNewOrCachedLoginData(o.token);
      if login.Failure? {
        return Finished(Fail(SolarApi(login.error))), solarRequest, forward, Pipeline[..1];
      }
      if o.panicAt == Some(SolarFetch) {
        return Panicked, solarRequest, forward, Pipeline[..1];
      }
      var request := GoodWe.SolarDataRequest(solarApi.powerstationId, login.value);
      solarRequest := Some(request);
      result, forward, trace := Report(o, request, solarApi.db.cachedToken);
    }

    /** The part of a cycle after the plant report has been requested: the
        UV index and the temperature, the insert, then the forward. */
    method Report(o: CycleOutcomes, request: GoodWe.HttpRequest, ghost tokens1: seq<TokenRow>)
      returns (result: FutureResult, forward: Option<ForwardRequest>, trace: seq<Step>)
      requires o.panicAt != Some(Login) && o.panicAt != Some(SolarFetch)
      modifies pool
      ensures var e := AfterReport(tokens1, old(pool.solarDataTsdb), request, o);
              result == e.result && forward == e.forward && trace == e.trace && pool.solarDataTsdb == e.rows
      ensures pool.cachedToken == old(pool.cachedToken)
    {
      forward := None;
      if o.solar.Failure? {
        return Finished(Fail(SolarApi(o.solar.error))), forward, Pipeline[..2];
      }
      var kwh := o.solar.value.data.kpi.pac;
      var rawData := o.solar.value;
      if o.panicAt == Some(UvFetch) {
        return Panicked, forward, Pipeline[..2];
      }
      var uvLevel := Weather.GetUvLevel(o.uv, Weather.PerthName).Ok();
      if o.panicAt == Some(WeatherFetch) {
        return Panicked, forward, Pipeline[..3];
      }
      var (_, weather) := Weather.GetWeatherDetails(Weather.JandakotGeocode, o.weather);
      var currentTemperature := if weather.Success? then Some(weather.value.data.temp) else None;
      if o.panicAt == Some(Insert) {
        return Panicked, forward, Pipeline[..4];
      }
      if o.insert.Failure? {
        return Finished(Fail(DatabaseFailure(o.insert.error))), forward, Pipeline[..5];
      }
      pool.InsertSolar(SolarRow(o.insert.value, kwh, rawData, uvLevel, currentTemperature));
      result, forward, trace := Forwarding(o, kwh, uvLevel, tokens1, pool.solarDataTsdb, Some(request));
    }

    /** The part of a cycle after its row is stored: the averages and the
        forward to the gateway, when one is configured. */
    method Forwarding(o: CycleOutcomes, kwh: F64, uvLevel: Option<F64>,
                      ghost tokens1: seq<TokenRow>, ghost rows1: seq<SolarRow>, ghost request: Option<GoodWe.HttpRequest>)
      returns (result: FutureResult, forward: Option<ForwardRequest>, trace: seq<Step>)
      requires LatePanic(o)
      ensures var e := AfterInsert(tokens1, rows1, kwh, uvLevel, request, o);
              result == e.result && forward == e.forward && trace == e.trace
    {
      forward := None;
      if o.gatewayBase.None? {
        return Finished(Pass), forward, Pipeline[..5];
      }
      var url := o.gatewayBase.value + IngestPath;
      var apiKey := if o.gatewayKey.Some? then o.gatewayKey.value else "";
      if o.panicAt == Some(Averages) {
        return Panicked, forward, Pipeline[..5];
      }
      if o.avg15.Failure? {
        return Finished(Fail(o.avg15.error)), forward, Pipeline[..6];
      }
      if o.avg60.Failure? {
        return Finished(Fail(o.avg60.error)), forward, Pipeline[..6];
      }
      if o.avg180.Failure? {
        return Finished(Fail(o.avg180.error)), forward, Pipeline[..6];
      }
      if o.panicAt == Some(Forward) {
        return Panicked, forward, Pipeline[..6];
      }
      var payload := SolarIngestPayload(kwh, SolarIngestAvgPayload(o.avg15.value, o.avg60.value, o.avg180.value), uvLevel);
      forward := Some(ForwardRequest(url, apiKey, payload));
      if o.post.Fail? {
        return Finished(Fail(HttpFailure(o.post.error))), forward, Pipeline;
      }
      result, trace := Finished(Pass), Pipeline;
    }

    /** `start`: the endless loop, run here for as many cycles as outcomes
        are given. Every cycle, whatever its result, is followed by the
        sleep of `SleepSeconds`, counted in `sleptSeconds`; only a panic is
        logged, a cycle's own error is dropped. */
    method Start(envs: seq<CycleOutcomes>) returns (results: seq<FutureResult>, forwards: seq<Option<ForwardRequest>>,
                                                     errorLogged: seq<bool>, sleptSeconds: nat)
      modifies pool, solarApi.db
      ensures |results| == |envs| && |forwards| == |envs|
      ensures forall i :: 0 <= i < |envs| ==>
                && results[i] == Run(solarApi.powerstationId, old(solarApi.db.cachedToken), old(pool.solarDataTsdb), envs)[i].result
                && forwards[i] == Run(solarApi.powerstationId, old(solarApi.db.cachedToken), old(pool.solarDataTsdb), envs)[i].forward
      ensures solarApi.db.cachedToken == TokensAfter(old(solarApi.db.cachedToken),
                Run(solarApi.powerstationId, old(solarApi.db.cachedToken), old(pool.solarDataTsdb), envs))
      ensures pool.solarDataTsdb == RowsAfter(old(pool.solarDataTsdb),
                Run(solarApi.powerstationId, old(solarApi.db.cachedToken), old(pool.solarDataTsdb), envs))
      ensures |errorLogged| == |envs| && forall i :: 0 <= i < |envs| ==> (errorLogged[i] <==> results[i].Panicked?)
      ensures sleptSeconds == SleepSeconds * |envs|
      ensures pool != solarApi.db ==> pool.cachedToken == old(pool.cachedToken)
      ensures pool != solarApi.db ==> solarApi.db.solarDataTsdb == old(solarApi.db.solarDataTsdb)
    {
      ghost var tokens0, rows0 := solarApi.db.cachedToken, pool.solarDataTsdb;
      var pid := solarApi.powerstationId;
      results, forwards, errorLogged, sleptSeconds := [], [], [], 0;
      var i := 0;
      ghost var effects: seq<CycleEffect> := [];
      while i < |envs|
        invariant 0 <= i <= |envs|
        invariant sleptSeconds == SleepSeconds * i
        invariant effects == Run(pid, tokens0, rows0, envs[..i])
        invariant Reports(effects, results, forwards, errorLogged)
        invariant solarApi.db.cachedToken == TokensAfter(tokens0, effects)
        invariant pool.solarDataTsdb == RowsAfter(rows0, effects)
        invariant pool != solarApi.db ==> pool.cachedToken == old(pool.cachedToken)
        invariant pool != solarApi.db ==> solarApi.db.solarDataTsdb == old(solarApi.db.solarDataTsdb)
      {
        RunStep(pid, tokens0, rows0, envs, i);
        ghost var e := CycleSpec(pid, solarApi.db.cachedToken, pool.solarDataTsdb, envs[i]);
        var result, _, forward, _ := RunCycle(envs[i]);
        ReportsExtend(effects, results, forwards, errorLogged, e);
        effects := effects + [e];
        // `catch_unwind` yields an error only for a panic, and only that is logged.
        errorLogged := errorLogged + [result.Panicked?];
        results := results + [result];
        forwards := forwards + [forward];
        sleptSeconds := sleptSeconds + SleepSeconds;
        i := i + 1;
      }
      assert envs[..|envs|] == envs;
    }
  }
}
