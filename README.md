# solar-panels: a verified model of the decision logic

solar-panels polls a GoodWe SEMS inverter portal and two weather services
once a minute. It stores each reading in a Postgres time series
(`solar_data_tsdb`) and serves history and health endpoints. This project
models, in Dafny, the parts of the program that make decisions:

- **The SEMS client** (`GoodWeSemsAPI`). This covers the credential cache in
  the append-only `cached_token` table: it reads only the newest row and
  logs in again when there is no row or the row is more than five whole
  minutes old. It also covers `login_and_save`, the latest saved reading,
  and the two requests sent to the portal, including the `token` header.
  That header is base 64 of the UTF-8 bytes of the credential's JSON text.
- **The fixed login header.** Its value is proved, by computation, to be
  that same header for the anonymous web credential `LoginData` written in
  the comment beside it, and to decode back to its JSON text.
- **The polling task** (`BackgroundTask::start`). Each cycle runs a fixed
  pipeline: credential lookup, plant report, UV index, temperature, insert,
  then the optional forward with three averages to a home gateway. After
  every cycle the task sleeps for 60 seconds.
- **The weather client.** This covers the UV station lookup, where the first
  matching name wins, and the observations URL template.
- **The decisions in `src/main.rs`.** These are the 48-hour history window
  and its split by UTC day, the health status, the "Missing Access" message
  substitution, and the older polling loop.

The module layout follows the program:

- `Common`, `GoodWeTypes` and `Db` hold the shared value types, the records of the API and the two tables.
- `Json`, `Utf8` and `Base64` say how `serde_json`, Rust strings and `BASE64_STANDARD` turn a credential into a header.
- `Strings` holds `str::contains` and `str::replace`.
- `GoodWe` and `LoginHeader` model src/goodwe/mod.rs.
- `Weather` models src/weather/mod.rs.
- `Background` models src/background/mod.rs.
- `App` models src/main.rs.

Everything that crosses a process boundary is a parameter holding its
outcome. That covers each HTTP exchange, each SQL statement, the clocks, and
the environment variables. Each component has two forms:

- a specification function from the old state and the outcomes to the
  result and the new state (`NewOrCachedSpec`, `CycleSpec`, `Run`,
  `LegacyRun`);
- an imperative class or method proved equal to it (`GoodWeSemsApi`,
  `BackgroundTask`, `LegacyLoop`).

The properties are stated as lemmas about the specification functions.

A cycle of `BackgroundTask::start` runs inside `catch_unwind`, which
catches only panics. A cycle that returns its own typed error (a failed
login, plant report, insert, average or forward) therefore yields
`Ok(Err(..))`, which the `if let Err(e)` at src/background/mod.rs:142-144
does not match: the typed error is silently dropped. Only a panic reaches
the `error fetching data` log line.

## Model

| member | source | states |
|---|---|---|
| GoodWe.TruncDiv | src/goodwe/mod.rs:113 | Rounds toward zero, as `num_minutes` does: for a non-negative dividend the quotient is the largest multiple not above it, for a negative one the smallest not below it. |
| GoodWe.StaleIffSixMinutes | src/goodwe/mod.rs:113 | A cached row is stale exactly when it is at least 360 seconds old. Five whole minutes means up to 359 s, and a row stamped in the future is fresh. |
| GoodWe.Decide | src/goodwe/mod.rs:106-121 | No row exactly when the table is empty. Otherwise the row considered is the newest by `created_at`, and it is reused exactly when it is not stale. |
| GoodWe.EmptyCacheLogsIn | src/goodwe/mod.rs:119-121 | With an empty table the lookup is `login_and_save`. A successful login and insert return the login's credential and leave a one-row table holding it. |
| GoodWe.FreshnessDecides | src/goodwe/mod.rs:111-118 | A newest row at least 360 s old leads to `login_and_save`. A younger one is returned unchanged, with no login and no insert. |
| GoodWe.SameDecisionSameCall | src/goodwe/mod.rs:112-121 | Two tables on which the same branch is taken give the same result and gain the same appended rows. |
| GoodWe.DecideIgnoresOlder | src/goodwe/mod.rs:106-109 | Rows older than the newest, placed before or after it, do not change the branch taken. |
| GoodWe.LoginAndSaveSpec | src/goodwe/mod.rs:124-137 | `login_and_save` succeeds exactly when the login and the insert both succeed. Then it returns the login's credential and appends one row holding it. On any failure the table is unchanged, and a failed login's error is returned as it is. |
| GoodWe.NewOrCachedSpec | src/goodwe/mod.rs:105-122 | The lookup leaves the table as it is or appends one row holding the credential it returns, and only after a successful insert. A failed lookup writes nothing, and a failed select is returned as a database error before anything else. |
| GoodWe.OnlyNewestRowMatters | src/goodwe/mod.rs:106-121 | Older rows, wherever they sit, change neither the credential returned nor what is appended. |
| GoodWe.OlderRowsBefore | src/goodwe/mod.rs:106-121 | Older rows placed before the newest change neither the credential returned nor what is appended. |
| GoodWe.OlderRowsAfter | src/goodwe/mod.rs:106-121 | Older rows placed after the newest change neither the credential returned nor what is appended. |
| GoodWe.TableGrowth | src/goodwe/mod.rs:112-136 | The table is unchanged or gains exactly one row holding the returned credential. It grows exactly when a refresh was due and both login and insert succeeded. A failed login propagates its error and writes nothing. |
| GoodWe.RefreshThenReuse | src/goodwe/mod.rs:112-132 | After a refresh that wrote a row, a lookup within 360 s of that row's stamp returns the same credential and leaves the table as it is. |
| GoodWe.TokenHeader | src/goodwe/mod.rs:87-90 | The header of an authenticated request decodes, under base 64, to the UTF-8 bytes of the credential's JSON text. |
| GoodWe.TokenHeaderDeterminesJson | src/goodwe/mod.rs:89 | Two credentials with the same header have the same JSON bytes. |
| GoodWeTypes.LoginDataJson | src/goodwe/mod.rs:89 | `serde_json` writes a credential as a JSON object whose first member is `uid`. |
| GoodWe.LoginRequest | src/goodwe/mod.rs:140-154 | The login is a POST to the CrossLogin URL. Its body is the `serde_json` text of the `LoginRequest` of account and password, and it carries the fixed token header. |
| GoodWeTypes.LoginRequestJson | src/goodwe/types.rs:5-9 | `serde_json` writes the login body as a JSON object whose first member is `account`. |
| LoginHeader.LoginRequestHeader | src/goodwe/mod.rs:146-150 | The login request's token header decodes to the JSON text of the anonymous web credential, and it is the header an authenticated request would carry for that credential. |
| GoodWe.SolarDataRequest | src/goodwe/mod.rs:79-91 | The plant-details request is a POST to the plant-details URL with the station id as its only form field. Its token header decodes to the credential's JSON bytes. |
| GoodWe.GoodWeSemsApi.constructor | src/goodwe/mod.rs:43-58 | The client keeps the database, the account and the station id it is given. |
| GoodWe.GoodWeSemsApi.LoginAndSave | src/goodwe/mod.rs:124-137 | Sends the login request. On success it appends exactly one row and returns the stored credential. A failed login or insert stores nothing and returns the error. The other table is untouched. |
| GoodWe.GoodWeSemsApi.GetNewOrCachedLoginData | src/goodwe/mod.rs:105-122 | Result and new table equal the specification. A login is sent exactly when the select succeeded and the newest row is missing or stale. |
| GoodWe.GoodWeSemsApi.LatestSavedSolarData | src/goodwe/mod.rs:60-72 | A failed query or an empty table is a database error. Otherwise the result is the saved columns of a row with the greatest `time`. |
| LoginHeader.AnonymousJsonText | src/goodwe/mod.rs:148-149 | `serde_json` writes the anonymous web credential as exactly the JSON text in the comment. |
| LoginHeader.HeaderAppend | src/goodwe/mod.rs:89 | Appending text to text whose UTF-8 bytes form whole base 64 groups appends the encodings. |
| LoginHeader.HeaderGroups | src/goodwe/mod.rs:150 | The hard-coded header is the literal of the source, cut into its 27 groups of four symbols. |
| LoginHeader.AnonymousHeader | src/goodwe/mod.rs:148-150 | The hard-coded login header is the token header of the anonymous web credential. |
| LoginHeader.AnonymousHeaderDecodes | src/goodwe/mod.rs:148-150 | The hard-coded login header decodes to the UTF-8 bytes of the JSON text in the comment. |
| Json.EscapeChar | src/goodwe/mod.rs:89 | A character is written as itself exactly when it is not a quote, a backslash or a control character. |
| Json.EscapePlain | src/goodwe/mod.rs:89 | Text with nothing to escape is written unchanged. |
| Json.Escape | src/goodwe/mod.rs:89 | Escaping never shortens text, and keeps its length exactly when no character needs escaping. |
| Json.Digits | src/goodwe/mod.rs:89 | An integer is written as at least one decimal digit. |
| Json.DigitsValue | src/goodwe/mod.rs:89 | The digits written for an integer denote that integer. |
| Json.DigitsInjective | src/goodwe/mod.rs:89 | Different integers are written differently. |
| Json.Str | src/goodwe/mod.rs:89 | A string is written between quotes, never shorter than the text plus two, and exactly that long when nothing needs escaping. |
| Json.Int | src/goodwe/mod.rs:89 | An `i64` is written as at least one character, which is a minus sign exactly when the number is negative. |
| Json.IntValue | src/goodwe/mod.rs:89 | The text written for an `i64` denotes that number. |
| Utf8.EncodeChar | src/goodwe/mod.rs:89 | A character takes one to four bytes, and one byte, its own code, exactly when it is ASCII. |
| Utf8.Encode | src/goodwe/mod.rs:89 | The bytes are at least as many as the characters, and exactly as many when the text is ASCII and only then. |
| Utf8.EncodeAscii | src/goodwe/mod.rs:89 | ASCII text is encoded byte for byte. |
| Utf8.EncodeConcat | src/goodwe/mod.rs:89 | Encoding distributes over concatenation. |
| Base64.DecodeEncode | src/goodwe/mod.rs:89 | Decoding the encoding of any bytes gives them back (RFC 4648, section 4, with padding). |
| Base64.EncodeDecode | src/goodwe/mod.rs:89 | Any text the decoder accepts is the encoding of what it decodes to, so the encoding is canonical and injective. |
| Base64.EncodeConcat | src/goodwe/mod.rs:89 | Bytes in whole groups of three encode independently of what follows. |
| Base64.Encode | src/goodwe/mod.rs:89 | The encoding has at least four symbols per three bytes, and at most 8/3 symbols more, the padding. |
| Base64.EncodedLengthExact | src/goodwe/mod.rs:89 | The encoding has exactly four symbols per started group of three bytes. |
| Base64.Decode | src/goodwe/mod.rs:89 | Only text in whole groups of four symbols is accepted, and it decodes to at most three bytes per four symbols. |
| Db.Database.InsertToken | src/goodwe/mod.rs:127-132 | Appends one row to `cached_token`, and nothing else changes. |
| Db.Database.InsertSolar | src/background/mod.rs:96-104 | Appends one row to `solar_data_tsdb`, and nothing else changes. |
| Db.Newest | src/goodwe/mod.rs:106-109 | `ORDER BY .. DESC LIMIT 1` gives a row with the greatest key, and no later row has an equal key. |
| Db.NewestIgnoresOlder | src/goodwe/mod.rs:107 | Strictly older rows, before or after, do not change which row is the newest. |
| Strings.ContainsIff | src/main.rs:76 | `contains` holds exactly when the pattern occurs at some position. |
| Strings.Contains | src/main.rs:76 | A pattern longer than the text is never contained, and a prefix of the text always is. |
| Strings.ReplaceSingle | src/weather/mod.rs:40 | A template with one placeholder, and no placeholder character elsewhere, becomes prefix, value, suffix. |
| Strings.Replace | src/weather/mod.rs:40 | Replacing a pattern by itself leaves the text unchanged. |
| Weather.FirstNamed | src/weather/mod.rs:67-70 | The position found has the name, and no earlier position does. |
| Weather.GetUvLevel | src/weather/mod.rs:53-74 | A fetch or decode error is returned before any lookup. Otherwise the result fails, with "perth not found", exactly when no location has the name, and succeeds with the index of the first location that has it. |
| Weather.FirstMatchWins | src/weather/mod.rs:67-71 | Locations after the first match do not change the answer. |
| Weather.WeatherDetailsUrl | src/weather/mod.rs:23-40 | The observations address is the template's prefix, the geocode and the template's suffix. |
| Weather.GetWeatherDetails | src/weather/mod.rs:34-50 | Requests that address and returns the reply's decoded outcome. |
| Background.AfterLogin | src/background/mod.rs:64-140 | The steps begun are a prefix of the pipeline. The cycle reaches the insert exactly when the credential and the report were obtained and no panic struck first. A row is added only then, and any forward matches the stored reading. |
| Background.AfterReport | src/background/mod.rs:65-140 | The same facts, once the plant report has been requested with the credential. |
| Background.AfterInsert | src/background/mod.rs:106-139 | After the insert the tables do not change. A forward goes out only with the gateway set and the three averages available: to `<base>/v1/ingest/solar`, with the key, the output, the averages in order and the UV index. It always goes out when the gateway is set, the averages are available and nothing panics. |
| Background.UvLevel | src/background/mod.rs:81 | The UV index kept is `None` when the fetch failed. When kept, it is the index of a location named as the Perth station. `InsertedRow` pins it to the first such location. |
| Background.Temperature | src/background/mod.rs:93 | The temperature kept is `None` exactly when the weather fetch failed, and otherwise the reply's `temp`. |
| Background.ApiKey | src/background/mod.rs:109-110 | The value of `HOME_GATEWAY_API_KEY` when set, and the empty string otherwise. |
| Background.NewRow | src/background/mod.rs:96-104 | The inserted row carries the database's stamp, `pac`, the whole report, a UV index that is `None` exactly when the UV lookup failed, and a temperature that is `None` exactly when the weather fetch failed. |
| Background.CycleSpec | src/background/mod.rs:62-140 | The steps begun are a prefix of the pipeline. The solar table is unchanged or gains the row of this cycle's report, only when report and insert succeeded. The token table is unchanged or, when no panic struck the lookup, is what the lookup left. A forward is sent only after a row was stored. |
| Background.InsertIsFifth | src/background/mod.rs:64-104 | The insert is among the first k steps exactly when k is at least five. |
| Background.TraceFollowsPipeline | src/background/mod.rs:62-140 | The steps of a cycle are a prefix of the pipeline. The insert is begun exactly when the lookup and report succeed and no panic strikes before it. A row is added exactly when the insert was begun and succeeded. |
| Background.EarlyFailureInsertsNothing | src/background/mod.rs:64-65 | A failed lookup or report leaves the table unchanged. No forward is sent, and the cycle does not succeed. |
| Background.CycleAppendsAtMostOne | src/background/mod.rs:62-140 | A cycle keeps both tables as they are or appends one row to each, and never removes anything. |
| Background.InsertedRow | src/background/mod.rs:67-104 | The stored row holds the database's stamp, `pac`, the whole report, and the UV index and temperature. Each of those two is `None` exactly when its own fetch failed, and the insert happens regardless. |
| Background.LateOutcomesKeepRow | src/background/mod.rs:96-137 | The gateway settings, the averages, the forward and a late panic cannot change what was stored. |
| Background.ForwardMatchesRow | src/background/mod.rs:106-134 | A forward requires the gateway and the averages. It goes to the base URL followed by `/v1/ingest/solar`, with the key or `""`, carrying the stored output and UV index and the 15, 60 and 180 minute averages in order. With everything available it is sent. |
| Background.SolarRequestCarriesCredential | src/background/mod.rs:64-65 | The report is requested only after a successful lookup, and with the credential the lookup returned. |
| Background.Run | src/background/mod.rs:60-147 | A run yields one effect per cycle. |
| Background.RunStep | src/background/mod.rs:60-147 | Each further cycle starts from the tables the previous one left. |
| Background.GrowStep | src/background/mod.rs:60-147 | A cycle run on tables grown by at most n rows leaves them grown by at most n + 1, still extending the originals. |
| Background.GrewAfter | src/background/mod.rs:60-147 | When the k-th cycle so far grew each table by at most k rows, the tables after all of them extend the originals by at most the number of cycles. |
| Background.RunAppendOnly | src/background/mod.rs:60-147 | Across cycles both tables only grow. After k + 1 cycles each extends the original by at most k + 1 rows, and each cycle keeps every row the previous cycle left and adds at most one to each table. |
| Background.RunGrowsFromStart | src/background/mod.rs:60-147 | After k + 1 cycles each table extends the original by at most k + 1 rows. |
| Background.RunPrefix | src/background/mod.rs:60-147 | The first i effects of a run are the run of the first i cycles' outcomes. |
| Background.NextCycle | src/background/mod.rs:60-147 | Cycle k + 1 runs on exactly the tables cycle k left. |
| Background.CycleToCycle | src/background/mod.rs:60-147 | Cycle k + 1 keeps every row cycle k left and adds at most one to each table. |
| Background.BackgroundTask.constructor | src/background/mod.rs:48-55 | The task keeps the pool and the portal client it is given. |
| Background.BackgroundTask.RunCycle | src/background/mod.rs:62-140 | One cycle's result, requests, steps and both tables equal the cycle specification, when the client's database and the pool are the same object and when they are not. |
| Background.BackgroundTask.Report | src/background/mod.rs:65-140 | The part after the report request equals its specification, and the token table is untouched. |
| Background.BackgroundTask.Forwarding | src/background/mod.rs:106-139 | The forward part equals its specification. |
| Background.BackgroundTask.Start | src/background/mod.rs:57-149 | For every cycle, whatever its outcome: a result and a forward as the run specification says, an error logged exactly when the cycle panicked, and a 60-second sleep, so `60 * n` seconds slept after n cycles. The tables end as the run leaves them, and when the pool and the client's database are different objects the token table of the pool and the solar table of the client's database are untouched. |
| App.Histories | src/main.rs:162-176 | One point per row, in order, each mapped from that row. |
| App.SolarHistory | src/main.rs:152-180 | The handler fails exactly when the query fails, with its message. |
| App.PartitionIsKeep | src/main.rs:177 | The partition is the two order-preserving filters "on today's UTC date" and "not". |
| App.KeepSplits | src/main.rs:177 | The two filters together hold the input's elements, counted with multiplicity. |
| App.KeepMembers | src/main.rs:177 | An element is in a filter exactly when it is in the input and satisfies (or fails) the date test. |
| App.WindowMembers | src/main.rs:157 | A row is in the window exactly when it is in the table and newer than 48 hours before the database's clock. |
| App.Window | src/main.rs:157 | The window keeps no more rows than the table, and every row it keeps is newer than 48 hours before the database's clock. |
| App.ToHistory | src/main.rs:162-176 | A point carries the row's `pac` as its output, its `power` as its cumulative total and the row's time. |
| App.Partition | src/main.rs:177 | The two lists together are as long as the input. The first holds only points on the given UTC day, and the second only points off it. |
| App.HistoryPartition | src/main.rs:155-177 | Every point of the window lands in exactly one list (multisets and lengths add up). `today` holds exactly the points on now's UTC date, and `yesterday` all the others. |
| App.HistoryPoints | src/main.rs:156-176 | The points are exactly the rows with `time > now - 48h`, each carrying `power`, `pac` and `time`. |
| App.HistoryKeepsOrder | src/main.rs:177 | Both lists keep the table's order: the lists of a concatenation are the concatenated lists. |
| App.WindowIsStrict | src/main.rs:157 | A row exactly 48 hours old is excluded, and one a second younger is included. |
| App.Health | src/main.rs:182-194 | 204 exactly when a connection is acquired and answers the ping; 503 exactly when either step fails. |
| App.ErrorText | src/goodwe/mod.rs:30-35 | The `Display` text of an error ends with the underlying library's message. |
| App.ErrorTextInjective | src/goodwe/mod.rs:30-35 | Different errors have different texts: the kind and the message can be read back. |
| App.ErrorLine | src/main.rs:326-328 | The logged line is `error fetching data: ` followed by the error's `Display` text. |
| App.ErrorLineInjective | src/main.rs:326-328 | Different errors are logged as different lines. |
| App.InteractionErrorMessage | src/main.rs:76-80 | The fixed "not accessible" notice exactly when the text contains "Missing Access", and the text unchanged otherwise. |
| App.LegacyIterationLogs | src/main.rs:319-330 | An iteration without a panic sleeps once. It logs `error fetching data: <error>` exactly when the lookup or the save failed, naming that error. |
| App.LegacyIteration | src/main.rs:319-330 | A stopped iteration neither sleeps nor logs. Otherwise it sleeps once and adds at most one line after the earlier ones. Without a panic it does not stop. |
| App.LegacyRun | src/main.rs:317-332 | A stopped loop stays as it is. The sleeps never decrease, and grow by at most one per iteration. |
| App.LegacyIterate | src/main.rs:319-330 | One iteration's logs, sleep, stop and token table equal the iteration specification, and the solar table is untouched. |
| App.LegacyRunsUntilPanic | src/main.rs:317-332 | Without a panic the loop never stops and sleeps once per iteration. Logged lines never exceed sleeps. Once a panic stops it, fewer sleeps than iterations were taken. |
| App.LegacyLoop | src/main.rs:317-332 | The loop's logs, sleeps, stop and token table equal the run specification, and the solar table is untouched. |
| App.LegacyStoppedStays | src/main.rs:317-332 | After the spawned task has ended, later outcomes change nothing. |

## Left out

- HTTP, SQL and serde decoding are not modelled. Each request, query and decode is a parameter holding its outcome, and the exchange itself is not modelled.
- Clocks are parameters, in whole seconds. This covers `Utc::now()`, the database's `NOW()`, and the `created_at` and `time` stamps the database assigns on insert. Sub-second precision is dropped, and the UTC date is the stamp divided by 86400.
- `ORDER BY .. DESC LIMIT 1` leaves ties open. Db.Newest picks the last inserted among equal stamps, and RefreshThenReuse requires the new stamp to be strictly newer.
- The rows of `solar_history` come in table order. SQL does not fix an order without `ORDER BY`, so the claims about order hold for that order.
- `get_average_for_last_n_minutes` is not part of this model. Its three results are opaque outcomes.
- `save_solar_data` (src/main.rs:322) is not part of this model, because no such method exists in src/goodwe/mod.rs. Its effect is an opaque outcome that writes nothing.
- `f64` values are carried as `real` and never computed with, so floating-point behaviour is not modelled.
- The two endless loops are not modelled as endless. Each runs over a finite sequence of per-cycle outcomes, with the claim that every cycle ends in the sleep. The sleep itself is a counter.
- Panics are modelled only at step boundaries. This covers `unwrap` on a serde value and a panic inside a library. A panic is the step at whose start it strikes.
- `js_at`, the formatted time string of the history points, is dropped.
- The `unwrap` of a stored `raw_data` (src/main.rs:164, src/goodwe/mod.rs:68) or of a cached `login_data` (src/goodwe/mod.rs:117) that fails to decode is not modelled. Solar rows hold the decoded report, and cached rows hold the decoded `LoginData`.
- Background.BackgroundTaskError.WeatherApi is declared but no path produces it: the UV and weather errors become `None` (src/background/mod.rs:81, 93).
- Logging is limited. The model keeps the `error fetching data` lines of both loops and none of the other `tracing` lines.
- The Discord gateway, command registration and embed building are framework plumbing and are not part of this model. That covers the `solar` and `solar_current` commands (src/main.rs:104-149) and the shard event loop (src/main.rs:335-365).
- The axum routing, CORS layer and `web/` front end are likewise framework plumbing and are not part of this model.
- Concurrency is not modelled: tokio tasks and the clones shared between them are outside the model.
- Json.Escape, Utf8.Encode: the functions themselves state only length facts. The full content follows from their per-character definitions, and the lemmas above rely on those.
