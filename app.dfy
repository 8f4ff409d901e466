/** The decisions made in src/main.rs: the generation history served at
    `/api/history`, the status of `/api/health`, the text shown for a failed
    Discord interaction, and the older polling loop spawned by `main`. */
module App {
  import opened Common
  import opened GoodWeTypes
  import Strings
  import GoodWe

  /** `INTERVAL '48 HOUR'`. */
  const HistoryWindowSeconds: int := 48 * 60 * 60

  const SecondsPerDay: int := 86400

  const MissingAccess: string := "Missing Access"
  const NotAccessibleMessage: string := "This channel is not accessible to the bot..."

  // ---------------------------------------------------------------------
  // solar_history

  /** The UTC calendar day of a time stamp, counted from the epoch. */
  function UtcDate(t: Timestamp): int
  {
    t / SecondsPerDay
  }

  /** One point of the history (`GenerationHistory`). */
  datatype GenerationHistory = GenerationHistory(cummalativeKwh: F64, wh: F64, at: Timestamp)

  datatype SolarHistoryResponse = SolarHistoryResponse(today: seq<GenerationHistory>, yesterday: seq<GenerationHistory>)

  /** `AppError`: any error, carrying its message. */
  datatype AppError = AppError(message: string)

  /** `time > NOW() - INTERVAL '48 HOUR'`, with the database's clock. */
  predicate InWindow(r: SolarRow, dbNow: Timestamp)
  {
    r.time > dbNow - HistoryWindowSeconds
  }

  /** The rows the query returns, in table order. */
  function Window(rows: seq<SolarRow>, dbNow: Timestamp): (w: seq<SolarRow>)
    ensures |w| <= |rows|
    ensures forall i :: 0 <= i < |w| ==> InWindow(w[i], dbNow)
  {
    if rows == [] then []
    else (if InWindow(rows[0], dbNow) then [rows[0]] else []) + Window(rows[1..], dbNow)
  }

  /** The history point of a row: the report's `power` as the day's
      cumulative energy, its `pac` as the output, and the row's time. */
  function ToHistory(r: SolarRow): (h: GenerationHistory)
    ensures h.wh == r.rawData.data.kpi.pac && h.cummalativeKwh == r.rawData.data.kpi.power && h.at == r.time
  {
    GenerationHistory(r.rawData.data.kpi.power, r.rawData.data.kpi.pac, r.time)
  }

  function Histories(rows: seq<SolarRow>): (hs: seq<GenerationHistory>)
    ensures |hs| == |rows|
    ensures forall i :: 0 <= i < |rows| ==> hs[i] == ToHistory(rows[i])
  {
    if rows == [] then [] else [ToHistory(rows[0])] + Histories(rows[1..])
  }

  predicate OnDay(h: GenerationHistory, day: int)
  {
    UtcDate(h.at) == day
  }

  /** `Iterator::partition`: one pass that sends each point to the first
      list when it falls on `day` and to the second otherwise. */
  function Partition(hs: seq<GenerationHistory>, day: int): (p: (seq<GenerationHistory>, seq<GenerationHistory>))
    ensures |p.0| + |p.1| == |hs|
    ensures forall i :: 0 <= i < |p.0| ==> OnDay(p.0[i], day)
    ensures forall i :: 0 <= i < |p.1| ==> !OnDay(p.1[i], day)
  {
    if hs == [] then ([], [])
    else
      var (yes, no) := Partition(hs[1..], day);
      if OnDay(hs[0], day) then ([hs[0]] + yes, no) else (yes, [hs[0]] + no)
  }

  /** The points that fall on `day` (`onDay`) or on another day (`!onDay`),
      in their original order: the reference the partition is proved
      against. */
  function Keep(hs: seq<GenerationHistory>, day: int, onDay: bool): seq<GenerationHistory>
  {
    if hs == [] then []
    else (if OnDay(hs[0], day) == onDay then [hs[0]] else []) + Keep(hs[1..], day, onDay)
  }

  /** `solar_history`: the rows of the last 48 hours by the database's
      clock, split by whether they fall on the application's current UTC
      day. A failed query is the handler's error. */
  function SolarHistory(table: seq<SolarRow>, select: Outcome<string>, dbNow: Timestamp, now: Timestamp)
    : (r: Result<SolarHistoryResponse, AppError>)
    ensures r.Failure? <==> select.Fail?
    ensures select.Fail? ==> r.error == AppError(select.error)
  {
    if select.Fail? then Failure(AppError(select.error))
    else
      var (today, yesterday) := Partition(Histories(Window(table, dbNow)), UtcDate(now));
      Success(SolarHistoryResponse(today, yesterday))
  }

  lemma {:induction false} PartitionIsKeep(hs: seq<GenerationHistory>, day: int)
    ensures Partition(hs, day) == (Keep(hs, day, true), Keep(hs, day, false))
  {
    if hs != [] {
      PartitionIsKeep(hs[1..], day);
      if OnDay(hs[0], day) {
        assert Keep(hs, day, false) == [] + Keep(hs[1..], day, false) == Keep(hs[1..], day, false);
      } else {
        assert Keep(hs, day, true) == [] + Keep(hs[1..], day, true) == Keep(hs[1..], day, true);
      }
    }
  }

  lemma {:induction false} KeepSplits(hs: seq<GenerationHistory>, day: int)
    ensures multiset(Keep(hs, day, true)) + multiset(Keep(hs, day, false)) == multiset(hs)
    ensures |Keep(hs, day, true)| + |Keep(hs, day, false)| == |hs|
  {
    if hs != [] {
      KeepSplits(hs[1..], day);
      assert hs == [hs[0]] + hs[1..];
    }
  }

  lemma {:induction false} KeepMembers(hs: seq<GenerationHistory>, day: int, onDay: bool)
    ensures forall h :: h in Keep(hs, day, onDay) <==> h in hs && OnDay(h, day) == onDay
  {
    if hs != [] {
      KeepMembers(hs[1..], day, onDay);
      assert hs == [hs[0]] + hs[1..];
    }
  }

  lemma {:induction false} KeepConcat(a: seq<GenerationHistory>, b: seq<GenerationHistory>, day: int, onDay: bool)
    ensures Keep(a + b, day, onDay) == Keep(a, day, onDay) + Keep(b, day, onDay)
  {
    if a == [] {
      assert a + b == b;
    } else {
      assert (a + b)[0] == a[0];
      assert (a + b)[1..] == a[1..] + b;
      KeepConcat(a[1..], b, day, onDay);
      var head: seq<GenerationHistory> := if OnDay(a[0], day) == onDay then [a[0]] else [];
      assert head + (Keep(a[1..], day, onDay) + Keep(b, day, onDay))
          == (head + Keep(a[1..], day, onDay)) + Keep(b, day, onDay);
    }
  }

  lemma {:induction false} WindowMembers(rows: seq<SolarRow>, dbNow: Timestamp)
    ensures forall r :: r in Window(rows, dbNow) <==> r in rows && InWindow(r, dbNow)
  {
    if rows != [] {
      WindowMembers(rows[1..], dbNow);
      assert rows == [rows[0]] + rows[1..];
    }
  }

  lemma {:induction false} WindowConcat(a: seq<SolarRow>, b: seq<SolarRow>, dbNow: Timestamp)
    ensures Window(a + b, dbNow) == Window(a, dbNow) + Window(b, dbNow)
  {
    if a == [] {
      assert a + b == b;
    } else {
      assert (a + b)[0] == a[0];
      assert (a + b)[1..] == a[1..] + b;
      WindowConcat(a[1..], b, dbNow);
      var head: seq<SolarRow> := if InWindow(a[0], dbNow) then [a[0]] else [];
      assert head + (Window(a[1..], dbNow) + Window(b, dbNow))
          == (head + Window(a[1..], dbNow)) + Window(b, dbNow);
    }
  }

  lemma HistoriesConcat(a: seq<SolarRow>, b: seq<SolarRow>)
    ensures Histories(a + b) == Histories(a) + Histories(b)
  {
  }

  /** The split is exhaustive and disjoint: every history point of the
      48-hour window lands in exactly one list, in `today` exactly when it
      falls on the current UTC day; and the points are exactly the rows
      whose time is strictly inside the window, mapped field by field. */
  lemma HistoryPartition(table: seq<SolarRow>, dbNow: Timestamp, now: Timestamp)
    ensures var r := SolarHistory(table, Pass, dbNow, now).value;
            var points := Histories(Window(table, dbNow));
            && multiset(r.today) + multiset(r.yesterday) == multiset(points)
            && |r.today| + |r.yesterday| == |points|
            && (forall h :: h in r.today <==> h in points && UtcDate(h.at) == UtcDate(now))
            && (forall h :: h in r.yesterday <==> h in points && UtcDate(h.at) != UtcDate(now))
  {
    var points := Histories(Window(table, dbNow));
    var day := UtcDate(now);
    PartitionIsKeep(points, day);
    KeepSplits(points, day);
    KeepMembers(points, day, true);
    KeepMembers(points, day, false);
  }

  /** The points of the window are the rows strictly newer than 48 hours
      before the database's clock, each carrying `power`, `pac` and the
      row's time. */
  lemma HistoryPoints(table: seq<SolarRow>, dbNow: Timestamp)
    ensures forall h :: h in Histories(Window(table, dbNow)) <==>
              exists row :: row in table && row.time > dbNow - 172800
                && h == GenerationHistory(row.rawData.data.kpi.power, row.rawData.data.kpi.pac, row.time)
  {
    var w := Window(table, dbNow);
    WindowMembers(table, dbNow);
    forall h | h in Histories(w)
      ensures exists row :: row in table && row.time > dbNow - 172800
                && h == GenerationHistory(row.rawData.data.kpi.power, row.rawData.data.kpi.pac, row.time)
    {
      var i :| 0 <= i < |Histories(w)| && Histories(w)[i] == h;
      assert w[i] in w;
    }
    forall h | exists row :: row in table && row.time > dbNow - 172800
                && h == GenerationHistory(row.rawData.data.kpi.power, row.rawData.data.kpi.pac, row.time)
      ensures h in Histories(w)
    {
      var row :| row in table && row.time > dbNow - 172800
                && h == GenerationHistory(row.rawData.data.kpi.power, row.rawData.data.kpi.pac, row.time);
      assert row in w;
      var i :| 0 <= i < |w| && w[i] == row;
      assert Histories(w)[i] == h;
    }
  }

  /** The split keeps the table's order: the lists for two runs of rows,
      one after the other, are the lists for each run, concatenated. */
  lemma HistoryKeepsOrder(a: seq<SolarRow>, b: seq<SolarRow>, dbNow: Timestamp, now: Timestamp)
    ensures SolarHistory(a + b, Pass, dbNow, now).value.today
            == SolarHistory(a, Pass, dbNow, now).value.today + SolarHistory(b, Pass, dbNow, now).value.today
    ensures SolarHistory(a + b, Pass, dbNow, now).value.yesterday
            == SolarHistory(a, Pass, dbNow, now).value.yesterday + SolarHistory(b, Pass, dbNow, now).value.yesterday
  {
    var day := UtcDate(now);
    var pa, pb := Histories(Window(a, dbNow)), Histories(Window(b, dbNow));
    WindowConcat(a, b, dbNow);
    HistoriesConcat(Window(a, dbNow), Window(b, dbNow));
    PartitionIsKeep(pa + pb, day);
    PartitionIsKeep(pa, day);
    PartitionIsKeep(pb, day);
    KeepConcat(pa, pb, day, true);
    KeepConcat(pa, pb, day, false);
  }

  /** A row exactly 48 hours old is outside the window; one a second
      younger is inside. */
  lemma WindowIsStrict(r: SolarRow, dbNow: Timestamp)
    ensures r.time == dbNow - 172800 ==> !InWindow(r, dbNow)
    ensures r.time == dbNow - 172799 ==> InWindow(r, dbNow)
  {
  }

  // ---------------------------------------------------------------------
  // health

  const NoContent: int := 204
  const ServiceUnavailable: int := 503

  /** `health`: 204 when a connection is acquired and answers the ping,
      503 when either step fails. */
  function Health(acquire: Outcome<string>, ping: Outcome<string>): (status: int)
    ensures status == NoContent <==> acquire.Pass? && ping.Pass?
    ensures status == ServiceUnavailable <==> acquire.Fail? || ping.Fail?
  {
    if acquire.Fail? then ServiceUnavailable
    else if ping.Pass? then NoContent
    else ServiceUnavailable
  }

  // ---------------------------------------------------------------------
  // handle_interaction_error

  /** The description of the error embed: the fixed notice when the error
      text mentions "Missing Access", the error text itself otherwise. */
  function InteractionErrorMessage(error: string): (m: string)
    ensures (exists i :: Strings.OccursAt(error, MissingAccess, i)) ==> m == NotAccessibleMessage
    ensures !(exists i :: Strings.OccursAt(error, MissingAccess, i)) ==> m == error
  {
    Strings.ContainsIff(error, MissingAccess);
    if Strings.Contains(error, MissingAccess) then NotAccessibleMessage else error
  }

  // ---------------------------------------------------------------------
  // The older polling loop (main.rs, spawned before the event loop)

  /** The steps of one iteration; a panic strikes at the start of one. */
  datatype LegacyStep = LookUpCredential | SaveSolarData

  datatype LegacyOutcomes = LegacyOutcomes(
    token: GoodWe.TokenCallOutcomes,  // get_new_or_cached_login_data
    save: Outcome<GoodWeError>,       // save_solar_data
    panicAt: Option<LegacyStep>)

  /** The `Display` text of `GoodWeSemsAPIError`: the kind of error, then
      the library's own message. */
  function ErrorText(e: GoodWeError): (t: string)
    ensures |t| > |e.detail| && t[|t| - |e.detail|..] == e.detail
  {
    match e
    case Http(d) => "a http error occurred: " + d
    case Database(d) => "a database error occurred: " + d
  }

  /** Different errors are displayed differently. */
  lemma ErrorTextInjective(a: GoodWeError, b: GoodWeError)
    requires ErrorText(a) == ErrorText(b)
    ensures a == b
  {
    var t := ErrorText(a);
    assert a.Http? <==> t[2] == 'h';
    assert b.Http? <==> ErrorText(b)[2] == 'h';
    if a.Http? {
      assert a.detail == t[23..] == b.detail;
    } else {
      assert a.detail == t[27..] == b.detail;
    }
  }

  /** The line `tracing::error!` writes for a failed iteration. */
  function ErrorLine(e: GoodWeError): (l: string)
    ensures |l| > 21 && l[..21] == "error fetching data: " && l[21..] == ErrorText(e)
  {
    "error fetching data: " + ErrorText(e)
  }

  /** The logged line names the error it reports. */
  lemma ErrorLineInjective(a: GoodWeError, b: GoodWeError)
    requires ErrorLine(a) == ErrorLine(b)
    ensures a == b
  {
    ErrorTextInjective(a, b);
  }

  /** The loop's state: the token table, the lines logged, the sleeps
      taken, and whether a panic has ended the task. */
  datatype LegacyState = LegacyState(tokens: seq<TokenRow>, logs: seq<string>, sleeps: nat, stopped: bool)

  /** One iteration: an error is logged and followed by the sleep; a panic
      is not caught, so it ends the spawned task. */
  function LegacyIteration(s: LegacyState, o: LegacyOutcomes): (t: LegacyState)
    ensures t.stopped ==> t.sleeps == s.sleeps && t.logs == s.logs
    ensures !t.stopped ==> t.sleeps == s.sleeps + 1 && |s.logs| <= |t.logs| <= |s.logs| + 1 && t.logs[..|s.logs|] == s.logs
    ensures o.panicAt.None? ==> !t.stopped
  {
    if o.panicAt == Some(LookUpCredential) then s.(stopped := true)
    else
      var (login, tokens) := GoodWe.NewOrCachedSpec(s.tokens, o.token);
      if login.Failure? then LegacyState(tokens, s.logs + [ErrorLine(login.error)], s.sleeps + 1, false)
      else if o.panicAt == Some(SaveSolarData) then LegacyState(tokens, s.logs, s.sleeps, true)
      else if o.save.Fail? then LegacyState(tokens, s.logs + [ErrorLine(o.save.error)], s.sleeps + 1, false)
      else LegacyState(tokens, s.logs, s.sleeps + 1, false)
  }

  /** The state after the given iterations; nothing runs once stopped. */
  function LegacyRun(s: LegacyState, envs: seq<LegacyOutcomes>): (t: LegacyState)
    ensures s.stopped ==> t == s
    ensures s.sleeps <= t.sleeps <= s.sleeps + |envs|
    decreases |envs|
  {
    if envs == [] then s
    else
      var before := LegacyRun(s, envs[..|envs| - 1]);
      if before.stopped then before else LegacyIteration(before, envs[|envs| - 1])
  }

  /** Each iteration that does not panic sleeps once and logs one line
      exactly when it failed, naming the error. */
  lemma LegacyIterationLogs(s: LegacyState, o: LegacyOutcomes)
    requires o.panicAt.None?
    ensures var t := LegacyIteration(s, o);
            var login := GoodWe.NewOrCachedSpec(s.tokens, o.token).0;
            && !t.stopped && t.sleeps == s.sleeps + 1
            && (login.Failure? ==> t.logs == s.logs + [ErrorLine(login.error)])
            && (login.Success? && o.save.Fail? ==> t.logs == s.logs + [ErrorLine(o.save.error)])
            && (login.Success? && o.save.Pass? ==> t.logs == s.logs)
  {
  }

  /** Without a panic the loop never stops: every iteration ends in the
      sleep, and each logs at most one line. Once a panic has stopped it,
      fewer sleeps than iterations were taken. */
  lemma {:induction false} LegacyRunsUntilPanic(tokens: seq<TokenRow>, envs: seq<LegacyOutcomes>)
    ensures var s := LegacyRun(LegacyState(tokens, [], 0, false), envs);
            && |s.logs| <= s.sleeps <= |envs|
            && (!s.stopped ==> s.sleeps == |envs|)
            && (s.stopped ==> s.sleeps < |envs|)
            && ((forall k :: 0 <= k < |envs| ==> envs[k].panicAt.None?) ==> !s.stopped)
    decreases |envs|
  {
    if envs != [] {
      var prefix := envs[..|envs| - 1];
      assert forall k :: 0 <= k < |prefix| ==> prefix[k] == envs[k];
      LegacyRunsUntilPanic(tokens, prefix);
    }
  }

  /** The loop of main.rs, run for as many iterations as outcomes are
      given or until a panic ends it. */
  method LegacyLoop(api: GoodWe.GoodWeSemsApi, envs: seq<LegacyOutcomes>) returns (logs: seq<string>, sleeps: nat, stopped: bool)
    modifies api.db
    ensures LegacyRun(LegacyState(old(api.db.cachedToken), [], 0, false), envs)
            == LegacyState(api.db.cachedToken, logs, sleeps, stopped)
    ensures api.db.solarDataTsdb == old(api.db.solarDataTsdb)
  {
    ghost var tokens0 := api.db.cachedToken;
    logs, sleeps, stopped := [], 0, false;
    var i := 0;
    while i < |envs| && !stopped
      invariant 0 <= i <= |envs|
      invariant LegacyRun(LegacyState(tokens0, [], 0, false), envs[..i]) == LegacyState(api.db.cachedToken, logs, sleeps, stopped)
      invariant api.db.solarDataTsdb == old(api.db.solarDataTsdb)
    {
      assert envs[..i + 1][..i] == envs[..i];
      logs, sleeps, stopped := LegacyIterate(api, envs[i], logs, sleeps);
      i := i + 1;
    }
    LegacyStoppedStays(LegacyState(tokens0, [], 0, false), envs, i);
  }

  /** One iteration of the loop of main.rs: look up the credential, save
      the reading, log an error, sleep; a panic ends the task. */
  method LegacyIterate(api: GoodWe.GoodWeSemsApi, o: LegacyOutcomes, logs0: seq<string>, sleeps0: nat)
    returns (logs: seq<string>, sleeps: nat, stopped: bool)
    modifies api.db
    ensures LegacyIteration(LegacyState(old(api.db.cachedToken), logs0, sleeps0, false), o)
            == LegacyState(api.db.cachedToken, logs, sleeps, stopped)
    ensures api.db.solarDataTsdb == old(api.db.solarDataTsdb)
  {
    logs, sleeps, stopped := logs0, sleeps0, false;
    if o.panicAt == Some(LookUpCredential) {
      return logs, sleeps, true;
    }
    var login, _ := api.GetNewOrCachedLoginData(o.token);
    if login.Failure? {
      logs := logs + [ErrorLine(login.error)];
      sleeps := sleeps + 1;
    } else if o.panicAt == Some(SaveSolarData) {
      stopped := true;
    } else {
      if o.save.Fail? {
        logs := logs + [ErrorLine(o.save.error)];
      }
      sleeps := sleeps + 1;
    }
  }

  /** Once stopped, later outcomes change nothing. */
  lemma {:induction false} LegacyStoppedStays(s: LegacyState, envs: seq<LegacyOutcomes>, i: nat)
    requires i <= |envs|
    requires i < |envs| ==> LegacyRun(s, envs[..i]).stopped
    ensures LegacyRun(s, envs) == LegacyRun(s, envs[..i])
    decreases |envs| - i
  {
    if i == |envs| {
      assert envs[..i] == envs;
    } else if i == |envs| - 1 {
      LegacyStoppedStep(s, envs);
    } else {
      var prefix := envs[..|envs| - 1];
      assert prefix[..i] == envs[..i];
      LegacyStoppedStays(s, prefix, i);
      LegacyStoppedStep(s, envs);
    }
  }

  /** An iteration after the loop stopped changes nothing. */
  lemma LegacyStoppedStep(s: LegacyState, envs: seq<LegacyOutcomes>)
    requires envs != [] && LegacyRun(s, envs[..|envs| - 1]).stopped
    ensures LegacyRun(s, envs) == LegacyRun(s, envs[..|envs| - 1])
  {
  }
}
