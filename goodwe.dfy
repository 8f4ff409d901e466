/** The client of the GoodWe SEMS portal (`GoodWeSemsAPI`, src/goodwe/mod.rs):
    the credential cache kept in the `cached_token` table, the latest saved
    reading, and the requests sent to the portal. Network exchanges and SQL
    statements are replaced by their outcomes, given as parameters. */
module GoodWe {
  import opened Common
  import opened GoodWeTypes
  import Db
  import Json
  import Utf8
  import Base64

  const LoginUrl: string := "https://www.semsportal.com/api/v2/Common/CrossLogin"
  const PlantDetailsUrl: string :=
    "https://au.semsportal.com/api/v3/PowerStation/GetPlantDetailByPowerstationId"

  /** The `token` header of the login request, fixed in the source. */
  const LoginTokenHeader: string :=
    "eyJ1aWQiOiIiLCJ0aW1lc3RhbXAiOjAsInRva2VuIjoiIiwiY2xpZW50Ijoid2ViIiwidmVyc2lvbiI6IiIsImxhbmd1YWdlIjoiZW4ifQ=="

  /** The credential the comment beside that header spells out. */
  const AnonymousLogin: LoginData := LoginData("", 0, "", "web", "", "en")

  /** What `fetch_one` reports for a query that returns no row. */
  const RowNotFound: string := "no rows returned by a query that expected to return at least one row"

  /** A cached credential is reused while its age, in whole minutes, is at
      most this. */
  const FreshMinutes: int := 5

  // ---------------------------------------------------------------------
  // Credential freshness

  /** Integer division as Rust and chrono do it: rounded toward zero. */
  function TruncDiv(a: int, d: int): (q: int)
    requires d > 0
    ensures a >= 0 ==> q * d <= a < q * d + d
    ensures a < 0 ==> q * d - d < a <= q * d
  {
    if a >= 0 then a / d else -((-a) / d)
  }

  /** `Duration::num_minutes` of a duration given in seconds. */
  function NumMinutes(seconds: int): int
  {
    TruncDiv(seconds, 60)
  }

  /** The staleness test of `get_new_or_cached_login_data`. */
  predicate IsStale(now: Timestamp, createdAt: Timestamp)
  {
    NumMinutes(now - createdAt) > FreshMinutes
  }

  /** "More than five whole minutes" means an age of at least six minutes;
      a row stamped in the future (a clock behind the database's) is fresh. */
  lemma StaleIffSixMinutes(now: Timestamp, createdAt: Timestamp)
    ensures IsStale(now, createdAt) <==> now - createdAt >= 360
  {
    var d := now - createdAt;
    var q := TruncDiv(d, 60);
    if d >= 360 {
      assert q * 60 > 300;
    } else if d >= 0 {
      assert q * 60 < 360;
    } else {
      assert q * 60 < 60;
    }
  }

  // ---------------------------------------------------------------------
  // The credential cache as a function of the table

  function CreatedAt(r: TokenRow): int
  {
    r.createdAt
  }

  /** The outcomes of the external steps of one credential lookup, in the
      order the source performs them. */
  datatype TokenCallOutcomes = TokenCallOutcomes(
    select: Outcome<string>,                 // SELECT ... FROM cached_token
    now: Timestamp,                          // chrono::offset::Utc::now()
    login: Result<LoginData, GoodWeError>,   // login(), used only when a refresh is due
    insert: Result<Timestamp, string>)       // INSERT INTO cached_token: the row's created_at

  /** The branch `get_new_or_cached_login_data` takes on a table. */
  datatype CacheDecision = NoRow | StaleRow(row: TokenRow) | FreshRow(row: TokenRow)

  function Decide(rows: seq<TokenRow>, now: Timestamp): (d: CacheDecision)
    ensures d.NoRow? <==> rows == []
    ensures !d.NoRow? ==> d.row == rows[Db.Newest(rows, CreatedAt)]
    ensures d.FreshRow? <==> rows != [] && !IsStale(now, d.row.createdAt)
  {
    if rows == [] then NoRow
    else
      var newest := rows[Db.Newest(rows, CreatedAt)];
      if IsStale(now, newest.createdAt) then StaleRow(newest) else FreshRow(newest)
  }

  /** `login_and_save`: the returned credential and the table afterwards. */
  function LoginAndSaveSpec(rows: seq<TokenRow>, login: Result<LoginData, GoodWeError>,
                            insert: Result<Timestamp, string>): (res: (Result<LoginData, GoodWeError>, seq<TokenRow>))
    ensures res.0.Success? <==> login.Success? && insert.Success?
    ensures res.0.Success? ==> res.0.value == login.value && res.1 == rows + [TokenRow(insert.value, login.value)]
    ensures res.0.Failure? ==> res.1 == rows
    ensures login.Failure? ==> res.0 == login
  {
    match login
    case Failure(e) => (Failure(e), rows)
    case Success(l) =>
      match insert
      case Failure(msg) => (Failure(Database(msg)), rows)
      case Success(t) => (Success(l), rows + [TokenRow(t, l)])
  }

  /** `get_new_or_cached_login_data`: the returned credential and the table
      afterwards. */
  function NewOrCachedSpec(rows: seq<TokenRow>, o: TokenCallOutcomes): (res: (Result<LoginData, GoodWeError>, seq<TokenRow>))
    ensures res.1 == rows || (o.insert.Success? && res.0.Success? && res.1 == rows + [TokenRow(o.insert.value, res.0.value)])
    ensures res.0.Failure? ==> res.1 == rows
    ensures o.select.Fail? ==> res == (Failure(Database(o.select.error)), rows)
  {
    if o.select.Fail? then (Failure(Database(o.select.error)), rows)
    else
      match Decide(rows, o.now)
      case FreshRow(row) => (Success(row.loginData), rows)
      case _ => LoginAndSaveSpec(rows, o.login, o.insert)
  }

  /** With no cached row the function logs in and saves what it got. */
  lemma EmptyCacheLogsIn(o: TokenCallOutcomes)
    requires o.select.Pass?
    ensures NewOrCachedSpec([], o) == LoginAndSaveSpec([], o.login, o.insert)
    ensures o.login.Success? && o.insert.Success? ==>
              NewOrCachedSpec([], o) == (Success(o.login.value), [TokenRow(o.insert.value, o.login.value)])
  {
    if o.login.Success? && o.insert.Success? {
      assert [] + [TokenRow(o.insert.value, o.login.value)] == [TokenRow(o.insert.value, o.login.value)];
    }
  }

  /** A newest row at least six minutes old forces a new login; a younger
      one is returned as it is, without a login and without an insert. */
  lemma FreshnessDecides(rows: seq<TokenRow>, o: TokenCallOutcomes)
    requires o.select.Pass? && rows != []
    ensures var newest := rows[Db.Newest(rows, CreatedAt)];
            && (o.now - newest.createdAt >= 360 ==>
                  NewOrCachedSpec(rows, o) == LoginAndSaveSpec(rows, o.login, o.insert))
            && (o.now - newest.createdAt < 360 ==>
                  NewOrCachedSpec(rows, o) == (Success(newest.loginData), rows))
  {
    StaleIffSixMinutes(o.now, rows[Db.Newest(rows, CreatedAt)].createdAt);
  }

  /** Two tables on which the same branch is taken give the same result and
      gain the same rows. */
  lemma SameDecisionSameCall(t1: seq<TokenRow>, t2: seq<TokenRow>, o: TokenCallOutcomes)
    requires Decide(t1, o.now) == Decide(t2, o.now)
    ensures NewOrCachedSpec(t1, o).0 == NewOrCachedSpec(t2, o).0
    ensures |NewOrCachedSpec(t2, o).1| >= |t2|
    ensures NewOrCachedSpec(t1, o).1 == t1 + NewOrCachedSpec(t2, o).1[|t2|..]
  {
    if o.select.Fail? || Decide(t2, o.now).FreshRow? || o.login.Failure? || o.insert.Failure? {
      assert NewOrCachedSpec(t2, o).1 == t2;
      assert t1 + t2[|t2|..] == t1;
    } else {
      var row := TokenRow(o.insert.value, o.login.value);
      assert NewOrCachedSpec(t2, o).1 == t2 + [row];
      assert (t2 + [row])[|t2|..] == [row];
    }
  }

  /** Rows older than the newest one do not change the branch taken. */
  lemma DecideIgnoresOlder(older: seq<TokenRow>, rows: seq<TokenRow>, now: Timestamp)
    requires rows != []
    requires forall j :: 0 <= j < |older| ==> older[j].createdAt < rows[Db.Newest(rows, CreatedAt)].createdAt
    ensures Decide(older + rows, now) == Decide(rows, now)
    ensures Decide(rows + older, now) == Decide(rows, now)
  {
    Db.NewestIgnoresOlder(older, rows, CreatedAt);
  }

  /** Only the newest row is consulted: rows older than it, wherever they
      sit in the table, change neither the result nor what is appended. */
  lemma OnlyNewestRowMatters(older: seq<TokenRow>, rows: seq<TokenRow>, o: TokenCallOutcomes)
    requires rows != []
    requires forall j :: 0 <= j < |older| ==> older[j].createdAt < rows[Db.Newest(rows, CreatedAt)].createdAt
    ensures NewOrCachedSpec(older + rows, o).0 == NewOrCachedSpec(rows, o).0
    ensures NewOrCachedSpec(older + rows, o).1 == older + NewOrCachedSpec(rows, o).1
    ensures NewOrCachedSpec(rows + older, o).0 == NewOrCachedSpec(rows, o).0
    ensures NewOrCachedSpec(rows + older, o).1 == (rows + older) + NewOrCachedSpec(rows, o).1[|rows|..]
  {
    OlderRowsBefore(older, rows, o);
    OlderRowsAfter(older, rows, o);
  }

  /** Older rows placed before the newest one change neither the result
      nor what is appended. */
  lemma OlderRowsBefore(older: seq<TokenRow>, rows: seq<TokenRow>, o: TokenCallOutcomes)
    requires rows != []
    requires forall j :: 0 <= j < |older| ==> older[j].createdAt < rows[Db.Newest(rows, CreatedAt)].createdAt
    ensures NewOrCachedSpec(older + rows, o).0 == NewOrCachedSpec(rows, o).0
    ensures NewOrCachedSpec(older + rows, o).1 == older + NewOrCachedSpec(rows, o).1
  {
    DecideIgnoresOlder(older, rows, o.now);
    SameDecisionSameCall(older + rows, rows, o);
    SameDecisionSameCall(rows, rows, o);
    var written := NewOrCachedSpec(rows, o).1[|rows|..];
    assert (older + rows) + written == older + (rows + written);
  }

  /** Older rows placed after the newest one change neither the result nor
      what is appended. */
  lemma OlderRowsAfter(older: seq<TokenRow>, rows: seq<TokenRow>, o: TokenCallOutcomes)
    requires rows != []
    requires forall j :: 0 <= j < |older| ==> older[j].createdAt < rows[Db.Newest(rows, CreatedAt)].createdAt
    ensures NewOrCachedSpec(rows + older, o).0 == NewOrCachedSpec(rows, o).0
    ensures NewOrCachedSpec(rows + older, o).1 == (rows + older) + NewOrCachedSpec(rows, o).1[|rows|..]
  {
    DecideIgnoresOlder(older, rows, o.now);
    SameDecisionSameCall(rows + older, rows, o);
  }

  /** The table only ever grows, by at most one row; it grows exactly when a
      login was due and both the login and the insert succeeded, and the new
      row holds the credential returned. A failed login writes nothing and
      its error is the result. */
  lemma TableGrowth(rows: seq<TokenRow>, o: TokenCallOutcomes)
    ensures var (r, after) := NewOrCachedSpec(rows, o);
            && (after == rows || after == rows + [TokenRow(o.insert.value, r.value)])
            && (|after| == |rows| + 1 <==>
                  o.select.Pass? && !Decide(rows, o.now).FreshRow? && o.login.Success? && o.insert.Success?)
            && (|after| == |rows| + 1 ==> r == o.login)
            && (o.select.Pass? && !Decide(rows, o.now).FreshRow? && o.login.Failure? ==>
                  r == o.login && after == rows)
  {
  }

  /** A call made within five whole minutes of a successful refresh returns
      the credential that refresh saved, and logs in and writes nothing. */
  lemma {:induction false} RefreshThenReuse(rows: seq<TokenRow>, o1: TokenCallOutcomes, o2: TokenCallOutcomes)
    requires NewOrCachedSpec(rows, o1).1 != rows
    requires o1.insert.Success? && forall j :: 0 <= j < |rows| ==> rows[j].createdAt < o1.insert.value
    requires o2.select.Pass? && o2.now - o1.insert.value < 360
    ensures var (r1, after) := NewOrCachedSpec(rows, o1);
            r1.Success? && NewOrCachedSpec(after, o2) == (r1, after)
  {
    var (r1, after) := NewOrCachedSpec(rows, o1);
    var row := TokenRow(o1.insert.value, o1.login.value);
    assert after == rows + [row];
    if rows == [] {
      assert Db.Newest(after, CreatedAt) == 0;
    } else {
      Db.NewestIgnoresOlder(rows, [row], CreatedAt);
    }
    StaleIffSixMinutes(o2.now, row.createdAt);
  }

  // ---------------------------------------------------------------------
  // Requests sent to the portal

  datatype HttpMethod = Get | Post

  datatype RequestBody = NoBody | Form(fields: seq<(string, string)>) | JsonText(text: string)

  datatype HttpRequest = HttpRequest(
    verb: HttpMethod,
    url: string,
    headers: seq<(string, string)>,
    body: RequestBody)

  /** The `token` header of an authenticated request: base 64 of the UTF-8
      bytes of the credential's JSON text. Decoding it gives that text back. */
  function TokenHeader(l: LoginData): (h: string)
    ensures Base64.Decode(h) == Some(Utf8.Encode(LoginDataJson(l)))
  {
    var h := Base64.Encode(Utf8.Encode(LoginDataJson(l)));
    Base64.DecodeEncode(Utf8.Encode(LoginDataJson(l)));
    h
  }

  /** Two credentials that share a header have the same serialised bytes:
      the encoding loses nothing of the JSON text. */
  lemma TokenHeaderDeterminesJson(a: LoginData, b: LoginData)
    requires TokenHeader(a) == TokenHeader(b)
    ensures Utf8.Encode(LoginDataJson(a)) == Utf8.Encode(LoginDataJson(b))
  {
  }

  /** The request of `login`: the account as JSON, and the fixed token
      header of an anonymous web client. */
  function LoginRequest(username: string, password: string): (req: HttpRequest)
    ensures req.verb == Post && req.url == LoginUrl
    ensures ("token", LoginTokenHeader) in req.headers
    ensures req.body == JsonText(LoginRequestJson(username, password))
  {
    HttpRequest(Post, LoginUrl, [("token", LoginTokenHeader)], JsonText(LoginRequestJson(username, password)))
  }

  /** The request of `get_solar_data`: the station as a form field, and the
      credential in the token header. */
  function SolarDataRequest(powerstationId: string, login: LoginData): (req: HttpRequest)
    ensures req.verb == Post && req.url == PlantDetailsUrl
    ensures req.body == Form([("powerStationId", powerstationId)])
    ensures exists h :: ("token", h) in req.headers && Base64.Decode(h) == Some(Utf8.Encode(LoginDataJson(login)))
  {
    var h := TokenHeader(login);
    assert ("token", h) in [("token", h)];
    HttpRequest(Post, PlantDetailsUrl, [("token", h)], Form([("powerStationId", powerstationId)]))
  }

  class GoodWeSemsApi {
    const db: Db.Database
    const username: string
    const password: string
    const powerstationId: string

    constructor (db: Db.Database, username: string, password: string, powerstationId: string)
      ensures this.db == db && this.username == username
      ensures this.password == password && this.powerstationId == powerstationId
    {
      this.db := db;
      this.username := username;
      this.password := password;
      this.powerstationId := powerstationId;
    }

    /** `login_and_save`: the login request is sent; a successful login is
        stored as one new row and returned, a failed login or a failed
        insert stores nothing. */
    method LoginAndSave(login: Result<LoginData, GoodWeError>, insert: Result<Timestamp, string>)
      returns (r: Result<LoginData, GoodWeError>, sent: HttpRequest)
      modifies db
      ensures sent == LoginRequest(username, password)
      ensures (r, db.cachedToken) == LoginAndSaveSpec(old(db.cachedToken), login, insert)
      ensures db.solarDataTsdb == old(db.solarDataTsdb)
    {
      sent := LoginRequest(username, password);
      if login.Failure? {
        return Failure(login.error), sent;
      }
      var data := login.value;
      if insert.Failure? {
        return Failure(Database(insert.error)), sent;
      }
      db.InsertToken(TokenRow(insert.value, data));
      r := Success(data);
    }

    /** `get_new_or_cached_login_data`: the login request goes out only
        when the table has no row or its newest row is stale. */
    method GetNewOrCachedLoginData(o: TokenCallOutcomes)
      returns (r: Result<LoginData, GoodWeError>, loginSent: Option<HttpRequest>)
      modifies db
      ensures (r, db.cachedToken) == NewOrCachedSpec(old(db.cachedToken), o)
      ensures loginSent.Some? <==> o.select.Pass? && !Decide(old(db.cachedToken), o.now).FreshRow?
      ensures loginSent.Some? ==> loginSent.value == LoginRequest(username, password)
      ensures db.solarDataTsdb == old(db.solarDataTsdb)
    {
      if o.select.Fail? {
        return Failure(Database(o.select.error)), None;
      }
      var rows := db.cachedToken;
      if rows != [] {
        var latest := rows[Db.Newest(rows, CreatedAt)];
        if !IsStale(o.now, latest.createdAt) {
          return Success(latest.loginData), None;
        }
      }
      var sent;
      r, sent := LoginAndSave(o.login, o.insert);
      loginSent := Some(sent);
    }

    /** `get_latest_saved_solar_data`: the newest row of `solar_data_tsdb`,
        or a database error when the query fails or the table is empty. */
    function LatestSavedSolarData(select: Outcome<string>): (r: Result<SavedSolarData, GoodWeError>)
      reads db
      ensures select.Fail? ==> r == Failure(Database(select.error))
      ensures select.Pass? && db.solarDataTsdb == [] ==> r == Failure(Database(RowNotFound))
      ensures select.Pass? && db.solarDataTsdb != [] ==> r.Success?
      ensures r.Success? ==>
                exists i :: 0 <= i < |db.solarDataTsdb| &&
                  (forall j :: 0 <= j < |db.solarDataTsdb| ==> db.solarDataTsdb[j].time <= db.solarDataTsdb[i].time) &&
                  r.value == Saved(db.solarDataTsdb[i])
    {
      if select.Fail? then Failure(Database(select.error))
      else if db.solarDataTsdb == [] then Failure(Database(RowNotFound))
      else Success(Saved(db.solarDataTsdb[Db.Newest(db.solarDataTsdb, RowTime)]))
    }
  }

  function RowTime(r: SolarRow): int
  {
    r.time
  }

  /** The three columns `get_latest_saved_solar_data` selects. */
  function Saved(r: SolarRow): SavedSolarData
  {
    SavedSolarData(r.rawData, r.temperature, r.uvLevel)
  }
}
