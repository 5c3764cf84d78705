# football_statistics extraction pipeline, in Dafny

This project models the extraction pipeline of `football_statistics`. The
pipeline fetches one league and season from API-Football, maps the JSON
payloads to rows of six tables (leagues, seasons, venues, teams, players and
player statistics) and upserts them through a SQLAlchemy session. It commits
once, at the end of a complete run. The model is written in Dafny and its
properties are proved.

Modules, one per file:

- `values.dfy` (`Values`). Decoded JSON values and Python truthiness (`x or y`,
  `d.get(k)`, `(x or {})`, `for x in (v or [])`). It also defines the Python
  exceptions a payload of the wrong shape raises: AttributeError, TypeError,
  ValueError and KeyError. Operations that can raise return a `Result`.
- `schema.dfy` (`Schema`). The six model classes. There is one record
  constructor per class, with one field per column, and the primary-key tuple
  of each class.
- `mappers.dfy` (`Mappers`). `_to_date`, `_to_decimal` and the six `map_*`
  functions, as pure functions. The library grammars `date.fromisoformat` and
  `Decimal(str)` are a `Parsers` parameter of partial functions.
- `api_client.dfy` (`ApiClient`). The client constructor, URL joining, the
  recursive `request` with its bounded 429 retry and its soft error envelope,
  and the `while True` pagination loop of `get_all_players_by_team`. That loop
  is a method proved against a recursive walk. The network is a `Server`
  function from (url, headers, params, attempt) to the outcome of one
  `requests.get`. Sleeps are returned as durations and counts.
- `repositories.dfy` (`Repositories`). `MODEL_MAP`, `upsert_one` and
  `upsert_many`. The session is a class with the pending tables, the committed
  tables and a log of commit/rollback/close calls. `merge` overwrites by
  primary key, and a None key counts as an ordinary key.
- `run_extraction.dfy` (`Extraction`). `_check_database_ready` and
  `run_extraction`. Each loop of the source is a method proved equal to a
  specification function. The stages are methods on the session, and the whole
  run is a method whose exit code, commit, rollback and close are tied to a
  ghost plan of the run.

Behaviour of the code that the model keeps as it is:

- The client does not retry a transport exception. It returns the error
  envelope at once (`extraction/api_client.py:51-52`).
- A status of 400 or more does not propagate out of `request`.
  `raise_for_status` raises an `HTTPError`, which is a `RequestException`, so
  it also becomes the error envelope.
- The client does not retry on a rate limit that a 200 response encodes in its
  body.
- `get_all_players_by_team` has no page cap and does not stop on a plan
  restriction.
- The mappers are not total. A nested value that is truthy but not a dict (for
  example `"birth": "x"`) has no `.get` and raises AttributeError. `_to_date` of
  a truthy non-string raises TypeError. The model returns those faults in the
  order Python meets them: a dict literal's values are evaluated in order, so in
  `map_season` a bad `start` date raises before a bad `coverage.fixtures` is
  read.

## Model

| member | source | states |
|---|---|---|
| Schema.KeyOf | database/models/player_statistics.py:9-12 | The primary-key tuple has two entries for a season (league id, year), four for a statistics row (player, team, league, season), and one (`id`) for every other model. |
| Mappers.Nested | extraction/mappers.py:87 | Whenever `x or {}` reads without raising, the dict it yields is the nested dict, or empty when the value is falsy. |
| Mappers.ToDate | extraction/mappers.py:6-12 | A falsy value gives None. A string goes to the ISO parser and a rejected string gives None. The result is a date exactly when the value is a non-empty string the parser accepts. It raises (TypeError) exactly for a truthy non-string. |
| Mappers.ToDecimal | extraction/mappers.py:15-21 | It never raises. None and "" give None. An int converts exactly. A string gives the parser's answer, None when rejected. It is Some exactly for an int or an accepted non-empty string. |
| Mappers.MapLeague | extraction/mappers.py:24-33 | A league row keyed by the league payload's `id`, with the three country columns taken from the country payload. |
| Mappers.MapSeason | extraction/mappers.py:36-58 | It succeeds exactly when `coverage`, `coverage.fixtures`, `start` and `end` read without raising. The faults come in evaluation order: a non-dict `coverage` gives AttributeError, then a bad `start` or `end` gives TypeError, then a non-dict `fixtures` gives AttributeError. The key is (argument league id, payload `year`), and the dates are the lenient parses of `start` and `end`. With `coverage` falsy, all twelve coverage columns are None. |
| Mappers.SeasonDateRaisesBeforeFixtures | extraction/mappers.py:43-46 | With `coverage.fixtures == 1` and `start == 5`, the date's TypeError is raised, not the AttributeError of `fixtures.get`. |
| Mappers.MapVenue | extraction/mappers.py:61-70 | A venue row keyed by the payload's `id`. |
| Mappers.MapTeam | extraction/mappers.py:73-83 | A team row keyed by the payload's `id` whose venue id is the argument verbatim, None included. |
| Mappers.MapPlayer | extraction/mappers.py:86-103 | It succeeds exactly when `birth` is a dict or falsy and its `date` parses leniently. It gives a player row keyed by the payload's `id`, and with `birth` falsy all three birth columns are None. |
| Mappers.MapPlayerStatistics | extraction/mappers.py:106-129 | It succeeds exactly when all eleven nested objects read without raising; otherwise it raises AttributeError. The key columns equal the four arguments whatever the payload holds. |
| Mappers.StatsRowOf | extraction/mappers.py:125-166 | The columns drawn from the eleven nested dicts form a statistics row. |
| Mappers.FalsyPlayGroupIsNone | extraction/mappers.py:113-148 | A missing or falsy `games`, `goals`, `shots`, `passes` or `tackles` makes every column drawn from it None (rating included). |
| Mappers.FalsyContestGroupIsNone | extraction/mappers.py:118-166 | A missing or falsy `duels`, `dribbles`, `fouls`, `cards`, `penalty` or `substitutes` makes every column drawn from it None. |
| Mappers.StatsRowOfIgnoresRating | extraction/mappers.py:130-136 | Two `games` dicts that agree on the six other keys give rows that differ at most in `rating`. |
| Mappers.GamesAgreeOutsideRating | extraction/mappers.py:130-136 | Dicts equal outside `rating` agree on the six other `games` keys the mapper reads. |
| Mappers.OtherGroupsAgree | extraction/mappers.py:114-123 | Payloads equal outside `games` yield the same ten other nested dicts. |
| Mappers.OtherGroupsShaped | extraction/mappers.py:113-123 | Payloads equal outside `games`, whose `games` are equally readable, are both readable or both raise. |
| Mappers.RatingOnlyAffectsRating | extraction/mappers.py:133 | Payloads differing only in `games.rating` both map or both raise. Their rows differ only in `rating`, which is the lenient decimal of the rating, so "N/A" becomes None, and so does a missing rating. |
| ApiClient.TrimLeft | extraction/api_client.py:28 | `lstrip`: a suffix of the input that starts with no dropped character, all of whose removed characters are dropped ones. |
| ApiClient.TrimRight | extraction/api_client.py:23 | `rstrip`: a prefix of the input that ends with no dropped character, all of whose removed characters are dropped ones. |
| ApiClient.ParseInt | extraction/api_client.py:34 | `int(s)` accepts only text that contains a decimal digit. |
| ApiClient.NatToString | extraction/api_client.py:73-74 | `str(n)` of a natural number is a non-empty digit string without a leading zero. |
| ApiClient.DigitsOfNat | extraction/api_client.py:73-74 | The digits `str(n)` prints denote `n`. |
| ApiClient.ParseIntOfIntToString | extraction/api_client.py:73-74 | Round trip: `int(str(n)) == n` for every integer. |
| ApiClient.ParseDigits | extraction/api_client.py:34 | A plain digit string parses to the number it denotes. |
| ApiClient.NewClient | extraction/api_client.py:10-25 | The key is the truthy argument, else the environment value. It raises ValueError exactly when that key is missing or empty. The base URL is stripped of trailing slashes (it ends in none) and the header carries the key. |
| ApiClient.UrlJoinsWithOneSlash | extraction/api_client.py:23-28 | The URL is the base without trailing slashes, one `/`, then the endpoint without leading slashes. Only slashes were removed, and no slash sits next to the joining one. |
| ApiClient.UrlIgnoresLeadingSlashes | extraction/api_client.py:28 | Any number of leading slashes on the endpoint gives the same URL. |
| ApiClient.LeadingSlashesTrimmed | extraction/api_client.py:28 | `lstrip('/')` removes every added leading slash. |
| ApiClient.ErrorEnvelope | extraction/api_client.py:52 | The envelope is a dict with a falsy `response` and `errors == {"request_exception": message}`. |
| ApiClient.Settle | extraction/api_client.py:39-52 | Without a retry: a transport exception, a 4xx/5xx status and an undecodable body all give exactly the error envelope. A decoded dict is returned unchanged, even with an empty `response`, and any other decoded value raises AttributeError. |
| ApiClient.Request | extraction/api_client.py:27-52 | One to `retries + 1` calls, one sleep between consecutive calls. The result is a dict, or the ValueError of a malformed `Retry-After` or the AttributeError of a non-dict body. |
| ApiClient.SettledByOneCall | extraction/api_client.py:33-52 | Every outcome except a 429 with retries left, transport exceptions included, is settled by a single call with no sleep. |
| ApiClient.RateLimitRetried | extraction/api_client.py:33-37 | A 429 with retries left sleeps `Retry-After` seconds and re-issues the same endpoint and params with one retry fewer. |
| ApiClient.DefaultRetryAfter | extraction/api_client.py:34 | A missing `Retry-After` is read as 60 seconds. |
| ApiClient.SixtyDigits | extraction/api_client.py:34 | The default header text "60" denotes 60. |
| ApiClient.DefaultWaitRetried | extraction/api_client.py:33-37 | A 429 without `Retry-After` and with retries left sleeps 60 seconds, then retries. |
| ApiClient.RateLimitStep | extraction/api_client.py:33-42 | One more persistent 429 adds one call and one 60-second sleep in front of the retried request. |
| ApiClient.PersistentRateLimit | extraction/api_client.py:33-42 | Under a 429 on every call, exactly `retries + 1` calls are made, with a 60-second sleep between consecutive ones, and the error envelope is returned. |
| ApiClient.GetLeague | extraction/api_client.py:54-55 | The league request makes one to three calls, and a successful result is a dict. |
| ApiClient.GetTeams | extraction/api_client.py:57-58 | The teams request makes one to three calls, and a successful result is a dict. |
| ApiClient.ToInt | extraction/api_client.py:73-74 | `int(v)` on JSON: ints as they are, booleans as 0/1, strings through `int(str)` (ValueError when rejected), anything else TypeError. |
| ApiClient.ReadPage | extraction/api_client.py:68-74 | The page's players are its `response` list. With `paging` falsy, both `current` and `total` are the page number. |
| ApiClient.FetchPage | extraction/api_client.py:60-76 | Fetching a page costs one to three calls. |
| ApiClient.PlayerPages | extraction/api_client.py:60-61 | Every page fetch costs one to three calls. |
| ApiClient.Join | extraction/api_client.py:70 | Prepending a page succeeds exactly when the rest of the walk does. |
| ApiClient.Walk | extraction/api_client.py:63-82 | At least one page is fetched, never past a page known to stop the loop. |
| ApiClient.WalkStopsAtFirstStop | extraction/api_client.py:67-77 | The walk fetches consecutive pages and ends at the first page with `current >= total`. Every earlier page was read and asked for more. |
| ApiClient.WalkCosts | extraction/api_client.py:76-80 | Between `pages` and `3 * pages` HTTP calls. There is one sleep before each page after the first, only when the per-page delay is positive. |
| ApiClient.WalkIgnoresLimit | extraction/api_client.py:67-78 | The walk does not depend on which stopping page bounds it. |
| ApiClient.AllPlayersIsWalk | extraction/api_client.py:63-82 | The players of a team are the walk from page 1 to any stopping page. |
| ApiClient.WalkUnfolds | extraction/api_client.py:67-80 | One page of the walk: a raising fetch ends it, a stopping page ends it, otherwise that page's players come first and the walk continues on the next page. |
| ApiClient.JoinNothing | extraction/api_client.py:64-65 | Starting from no players and no pages changes nothing. |
| ApiClient.JoinAssociates | extraction/api_client.py:70 | Appending pages one at a time equals appending them together. |
| ApiClient.CollectPages | extraction/api_client.py:63-82 | The `while True` loop returns exactly the walk from page 1: players in page order, pages, calls, waits and pauses. |
| ApiClient.GetAllPlayersByTeam | extraction/api_client.py:63-82 | `get_all_players_by_team` is that loop over this team's pages and the client's per-page delay. |
| ApiClient.WalkPageCount | extraction/api_client.py:72-78 | Pages that ask for more up to a stopping page are all fetched: exactly `limit - page + 1` pages. |
| ApiClient.ReportedPageStops | extraction/api_client.py:72-77 | A page that reports `current = p` and `total = T` stops the loop exactly when `p >= T`. |
| ApiClient.CountedPages | extraction/api_client.py:72-78 | When every page p reports `current = p` and `total = T`, exactly `max(T, 1)` pages are requested. |
| ApiClient.NoPagingOnePage | extraction/api_client.py:72-77 | With `paging` absent on page 1, exactly one page is requested and its `response` is the result. |
| Repositories.ModelFor | extraction/repositories.py:8-15 | `MODEL_MAP` maps each of its six keys to its model. Any other name is a KeyError. |
| Repositories.ModelMapCoversEveryModel | extraction/repositories.py:8-15 | Every model is reachable from `MODEL_MAP`. |
| Repositories.Put | extraction/repositories.py:20 | `merge` replaces the row under the row's key in its model's table and leaves every other table unchanged. |
| Repositories.MergeRow | extraction/repositories.py:18-20 | It succeeds exactly when the name maps to the row's model. An unknown name raises KeyError and a row of another model raises TypeError. |
| Repositories.Batch | extraction/repositories.py:23-28 | A successful batch returns the number of rows iterated, duplicates and null keys included. |
| Repositories.BatchSucceeds | extraction/repositories.py:23-28 | A batch succeeds exactly when it is empty, or the name is known and every row is of its model. |
| Repositories.UnknownNameChangesNothing | extraction/repositories.py:19 | An unknown model name raises KeyError on the first row and changes nothing. |
| Repositories.OverlayMerge | extraction/repositories.py:20 | Merging a row after an overlay equals overlaying the merged row. |
| Repositories.BatchOverlays | extraction/repositories.py:23-28 | A successful batch overlays its rows by key, in input order, on its model's table and changes no other table. |
| Repositories.BatchKeepsOtherTables | extraction/repositories.py:20 | A successful batch leaves every other model's table unchanged. |
| Repositories.OverlayLastWins | extraction/repositories.py:25-26 | The overlay holds, under each key, the last row carrying it. |
| Repositories.OverlayKeys | extraction/repositories.py:25-26 | Only keys carried by some row are in the overlay. |
| Repositories.LastWriteWins | extraction/repositories.py:20-26 | After a successful batch, the stored row under each key of the batch is the last input row with that key. |
| Repositories.KeysOutsideBatchUnchanged | extraction/repositories.py:20 | Keys no row of the batch carries keep their presence and their row, in every table. |
| Repositories.BatchIdempotent | extraction/repositories.py:23-28 | Applying a successful batch again leaves the tables of the first application and returns the same count. |
| Repositories.BatchFailureSticks | extraction/repositories.py:25-26 | Once a prefix of the batch raises, no later row is merged. |
| Repositories.Session.constructor | extraction/run_extraction.py:84 | A new session sees the database, with nothing pending and nothing logged. |
| Repositories.Session.Merge | extraction/repositories.py:20 | The pending tables get the row merged. The committed tables are untouched. |
| Repositories.Session.Commit | extraction/run_extraction.py:189 | The pending tables become the committed tables. |
| Repositories.Session.Rollback | extraction/run_extraction.py:194 | Pending changes are discarded. |
| Repositories.Session.Close | extraction/run_extraction.py:206 | Uncommitted changes are discarded. |
| Repositories.UpsertOne | extraction/repositories.py:18-20 | `upsert_one` merges the row, or raises the KeyError/TypeError of `MergeRow` with the session unchanged. |
| Repositories.UpsertMany | extraction/repositories.py:23-28 | The counting loop returns the batch's count or its first fault, and leaves the session's pending tables as the batch leaves them. |
| Extraction.ExpectedTablesAreTheModels | extraction/run_extraction.py:55-62 | The six expected names are exactly the `__tablename__`s of the six models. |
| Extraction.ExpectedTablesSorted | extraction/run_extraction.py:73 | The expected names are listed in Python's string order. |
| Extraction.Missing | extraction/run_extraction.py:73 | The names kept are exactly those not present. |
| Extraction.MissingSorted | extraction/run_extraction.py:73 | Dropping names from a sorted list keeps it sorted. |
| Extraction.MissingTables | extraction/run_extraction.py:73 | `sorted(expected - existing)`: exactly the absent expected names, in strictly increasing order. |
| Extraction.DatabaseReadyIff | extraction/run_extraction.py:54-80 | Ready exactly when the `SELECT 1` probe succeeds and all six expected tables exist. |
| Extraction.AsDict | extraction/run_extraction.py:96 | `.get` works exactly on a dict. Anything else raises AttributeError. |
| Extraction.FirstItem | extraction/run_extraction.py:105 | `response[0]` on a truthy response is the first list item. Only a list or a string can be indexed. |
| Extraction.SeasonRows | extraction/run_extraction.py:107-111 | Every kept row is a season row of the league's id whose year equals the requested season. |
| Extraction.SeasonRowsAreMatchingItems | extraction/run_extraction.py:107-111 | The season rows are exactly the mapped items whose year matches, in payload order. |
| Extraction.TeamPartOf | extraction/run_extraction.py:133-140 | One team item gives a venue row and a team row whose venue id is that venue's id, None included. |
| Extraction.TeamBatches | extraction/run_extraction.py:132-140 | One team row per item, in item order. Venue rows all have a non-None id. |
| Extraction.VenueBatchIsKeptVenues | extraction/run_extraction.py:136-138 | The venue batch is exactly the mapped venues with a non-None id, in item order. |
| Extraction.StatsRowFor | extraction/run_extraction.py:171-180 | The statistics row's key is the player id, then the entry's team id, league id and season, each falling back with `or`. |
| Extraction.StatsKeysFallBack | extraction/run_extraction.py:176-178 | A truthy team id, league id or season in the entry wins. A falsy one (None, 0, "") gives way to the enclosing team id, the requested league or the requested season. |
| Extraction.EachOf | extraction/run_extraction.py:171-172 | A loop that maps items in order: as many results as items, each the item's mapping. |
| Extraction.EachOfFailureSticks | extraction/run_extraction.py:171-172 | An exception in a prefix ends the loop with it. |
| Extraction.EachOfStep | extraction/run_extraction.py:171-172 | One more item appends its mapping or raises its fault. |
| Extraction.EachOfSucceeds | extraction/run_extraction.py:171-172 | When no item raises, the loop succeeds. |
| Extraction.StatsRowsFor | extraction/run_extraction.py:171-180 | One statistics row per entry, in order, each that entry's row, all for the given player. |
| Extraction.RowsOfPlayer | extraction/run_extraction.py:164-180 | A player item gives at most one player row, with a non-None id, and statistics rows only for a non-None player id. |
| Extraction.TeamPlayerRows | extraction/run_extraction.py:163-180 | At most one player row per item. Only non-None player ids contribute player and statistics rows. |
| Extraction.QueriedTeams | extraction/run_extraction.py:150-153 | The queried ids are the non-None team ids, each one queried. |
| Extraction.TeamStage | extraction/run_extraction.py:156-181 | A team's rows carry only non-None player ids. |
| Extraction.PlayerStage | extraction/run_extraction.py:150-183 | Exactly the non-None team ids are queried, in order, with one 10-second pause each. Rows carry only non-None player ids. |
| Extraction.TeamBatchesFailureSticks | extraction/run_extraction.py:132-140 | An exception on an item ends the team loop with it. |
| Extraction.BuildTeamBatches | extraction/run_extraction.py:129-140 | The appending loop builds exactly `TeamBatches`. |
| Extraction.CollectEach | extraction/run_extraction.py:171-172 | The loop method computes exactly `EachOf`. |
| Extraction.CollectStats | extraction/run_extraction.py:171-180 | The statistics loop appends exactly `StatsRowsFor`. |
| Extraction.PlayerRows | extraction/run_extraction.py:164-180 | One player item yields exactly `RowsOfPlayer`. |
| Extraction.TeamPlayerRowsFailureSticks | extraction/run_extraction.py:163-180 | An exception on a player item ends the team's loop with it. |
| Extraction.CollectTeamPlayers | extraction/run_extraction.py:163-180 | The loop over a team's players builds exactly `TeamPlayerRows`. |
| Extraction.PlayersOfTeam | extraction/run_extraction.py:156-181 | Fetching and mapping a team gives exactly `TeamStage`: an empty list adds nothing. |
| Extraction.PlayerStageFailureSticks | extraction/run_extraction.py:150-183 | An exception on a team ends the players stage with it. |
| Extraction.PlayerStageStep | extraction/run_extraction.py:150-183 | A None team id is skipped. Any other team appends its rows, its id and a pause. |
| Extraction.CollectAllPlayers | extraction/run_extraction.py:150-183 | The loop over the team rows builds exactly `PlayerStage`. |
| Extraction.LeaguePlan | extraction/run_extraction.py:95-120 | The run stops here exactly when the league document's `response` is falsy. |
| Extraction.LeaguePlanMergesLeague | extraction/run_extraction.py:105-117 | A league stage that goes on stores the league row of the first entry, and the season batch does not overwrite it. |
| Extraction.StoreTeams | extraction/run_extraction.py:142-143 | The venue and team batches succeed exactly when each is empty or of its model. |
| Extraction.BuiltTeamsAreStored | extraction/run_extraction.py:132-143 | The batches built from team items always store, and all team rows are team rows. |
| Extraction.TeamsPlan | extraction/run_extraction.py:123-144 | The run stops here exactly when the teams `response` is falsy. The teams handed on are team rows. |
| Extraction.StorePlayers | extraction/run_extraction.py:185-186 | The player and statistics batches succeed exactly when each is empty or of its model. |
| Extraction.GatheredRowsAreStored | extraction/run_extraction.py:185-186 | The gathered player and statistics rows always store. |
| Extraction.PlayersPlan | extraction/run_extraction.py:147-187 | The players stage raises exactly when gathering the rows raises. Storing them never does. |
| Extraction.LoadLeague | extraction/run_extraction.py:95-120 | On the session: exactly `LeaguePlan`. When the stage goes on, the pending tables are the planned ones. On a stop (empty `response`) or an exception, nothing is merged: the pending tables are unchanged, so the run returns before any upsert. Nothing is committed. |
| Extraction.LoadTeams | extraction/run_extraction.py:123-144 | On the session: exactly `TeamsPlan`. When the stage goes on, the pending tables are the planned ones. On a stop (empty `response`) or an exception, nothing is merged: the pending tables are unchanged. Nothing is committed. |
| Extraction.LoadPlayers | extraction/run_extraction.py:147-187 | On the session: exactly `PlayersPlan`. On success, the pending tables are the planned ones. On an exception while gathering, nothing is merged: the pending tables are unchanged. Nothing is committed. |
| Extraction.RunPlan | extraction/run_extraction.py:89-187 | The run is not ready exactly when the database check fails. It finishes only with a ready database and a built client. |
| Extraction.FromLeague | extraction/run_extraction.py:95-187 | Past the database check, the run is never "not ready". |
| Extraction.FromTeams | extraction/run_extraction.py:123-187 | Past the league stage, the run never stops for want of a league. |
| Extraction.StopsWithoutLeague | extraction/run_extraction.py:96-103 | The run stops for want of a league exactly when it is ready, the client is built and the league `response` is falsy. |
| Extraction.StopsWithoutTeams | extraction/run_extraction.py:124-127 | The run stops for want of teams only after the league stage went on, and then the teams `response` is falsy. |
| Extraction.FinishedRunStoresLeague | extraction/run_extraction.py:113-187 | A finished run's league table is the one the league stage left. |
| Extraction.TeamsKeepLeagues | extraction/run_extraction.py:142-143 | The teams stage leaves the league table as it was. |
| Extraction.PlayersKeepLeagues | extraction/run_extraction.py:185-186 | The players stage leaves the league table as it was. |
| Extraction.ClientAsWritten | extraction/run_extraction.py:92 | The call as written always raises TypeError: the unexpected keyword `rate_limit_retry_seconds`. |
| Extraction.ClientAsIntended | extraction/run_extraction.py:92 | The intended client is built exactly when the environment key is non-empty (else ValueError), with the default base URL and a 10-second page delay. `rate_limit_retry_seconds` is dropped, and the 429 default wait stays at 60 seconds. |
| Extraction.AsWrittenRunAlwaysCrashes | extraction/run_extraction.py:92 | As written, every ready run crashes with TypeError before any request. |
| Extraction.IntendedClientGetsPastLine92 | extraction/run_extraction.py:92 | As intended, a run crashes at the client only for want of a key. A configured key builds the client. |
| Extraction.RunStages | extraction/run_extraction.py:89-187 | The stages on the session give exactly the run plan, with the finished run's tables pending. A failed database check or an empty league response leaves the pending tables as they were. Nothing is committed. |
| Extraction.RunExtraction | extraction/run_extraction.py:83-206 | The exit code is 0 exactly when every stage ran, and then the plan's tables are committed. An exception rolls back and gives 1. An early stop gives 1 without a commit. The session is closed on every path, so nothing uncommitted remains. |

## Left out

- HTTP transport, headers on the wire and timeouts are left out. Each call's outcome is an input to the model: the `Server` function maps (url, headers, params, attempt) to a transport exception or to (status, Retry-After, body, error text).
- `time.sleep` is not performed. The retry sleeps are returned as a list of seconds, and the page and team pauses are returned as counts. The order in which retry sleeps and page pauses interleave is not kept.
- `print`, `_fail`, `_ok` and `_diagnose_database_error` only log, so they are left out.
- `load_dotenv` and `os.getenv` are left out. The `API_FOOTBALL_KEY` value is a parameter (`envKey`).
- Repositories.Batch: a None primary key is treated as an ordinary key, so rows keyed None overwrite one another. SQLAlchemy's `merge` would instead add a new pending instance for each. This matters for teams whose id is None (`extraction/run_extraction.py:140`). For such rows, LastWriteWins and BatchIdempotent hold in the model only.
- SQLAlchemy is left out: the identity map, flush, foreign keys, column types and what the database itself enforces. The `SELECT 1` probe and `inspect(...).get_table_names()` are the parameters `probe` and `existing`. No SQLAlchemyError or KeyboardInterrupt is raised inside the model, but both are handled by the same rollback path as a modelled exception.
- Floating-point numbers are not modelled. JSON numbers are integers, so the per-page delay is a `real` compared only with 0.
- `date.fromisoformat` and `Decimal(str)` are abstract partial functions (`Parsers`). `str()` of a boolean, list or dict is never a decimal literal.
- ApiClient.ParseInt: accepts ASCII whitespace, a sign and ASCII digits. It does not model underscores or non-ASCII digits and whitespace, which Python's `int()` also accepts.
- Values.ItemsOf: a truthy value that is not a list raises TypeError. Python would instead iterate a string's characters or a dict's keys and then raise AttributeError on `.get`, so the exception class differs. On a player page it differs more: `players.extend(response)` (`extraction/api_client.py:69`) accepts a truthy string or dict without raising, so the source goes on requesting and pausing between pages until paging stops, and only then crashes at `row.get` in `run_extraction`. `ApiClient.ReadPage` instead ends the walk at that page with TypeError, so for such a page the model undercounts calls and pauses (and it ends where the source would loop forever if paging never stopped).
- ApiClient.Request: `retries` is a natural number. The source only passes its default of 2.
- ApiClient.AllPlayers: defined only when some page stops the walk (`PagingEnds`). The source's `while True` loop has no page cap, so a server that never reports `current >= total` makes it run forever, and that case is not modelled. Extraction.RunExtraction requires this of every team (`AllPagingEnds`).
- Extraction.RunExtraction: runs with the client as line 92 evidently intends (see Findings): the environment key and a 10-second delay between pages. The `rate_limit_retry_seconds=10` keyword has no counterpart in the client, so the model ignores it, and a 429 without `Retry-After` still waits the client's default of 60 seconds (`extraction/api_client.py:34`), not 10. The crash of the source as written at that line is modelled separately.
- Rows are typed records with one field per column. Every mapper therefore returns the same fixed column set by construction, and no lemma restates it.
- `get_players_by_team` with its default page, `parse_args` and the `__main__` block are command-line plumbing and are left out.

## Findings

| source | as written | input that shows it | evidently intended | confidence | as-written member | corrected member |
|---|---|---|---|---|---|---|
| extraction/run_extraction.py:92 | `ApiFootballClient(per_page_delay_seconds=10.0, rate_limit_retry_seconds=10)` passes a keyword the constructor (extraction/api_client.py:10-15) does not accept. The call raises TypeError, the run rolls back and returns 1. | Any run whose database check passes, with any environment. | Build the client with the environment key and a 10-second delay between pages, then run the stages. The model ignores `rate_limit_retry_seconds`, which the client has no place for, and keeps the client's 60-second default wait after a 429 without `Retry-After`. | not executed | Extraction.AsWrittenRunAlwaysCrashes | Extraction.IntendedClientGetsPastLine92 |
