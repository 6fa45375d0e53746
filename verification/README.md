# silldisplay station-board cache, in Dafny

The server polls the ÖBB station-board client for each configured station,
normalises the raw departure records into journeys, caches the latest result
per station (keyed by evaId), and serves it on `/api/journeys`. This project
models that core as pure functions over immutable datatypes:

- `options.dfy` (`Options`): absent values and the JavaScript truthiness behind `a || b`.
- `journeys.dfy` (`Journeys`): raw records, normalised journeys, and the ordered
  status rule. `Ausfall` gives cancelled. Otherwise a present, non-zero `dlm` gives delayed.
  Otherwise the journey is on time.
- `board.dfy` (`Board`): the configured stations, the cache entry, and the two
  commits of `fetchStationBoard`. A success replaces the entry. A failure keeps the
  journeys and timestamp and records the message.
- `read_service.dfy` (`ReadService`): how `/api/journeys` resolves the station
  and selects one of four responses, with the HTTP status of each.
- `scheduler.dfy` (`Scheduler`): completed fetches as ticks folded over the cache.
  This covers the startup loop, the independence of stations, and the rule that
  the latest successful snapshot survives later failures.

Modelling choices:
- Raw fields that JavaScript may leave `undefined` are `Option`s and are copied verbatim.
- `rt.dlm` is truthy when present and non-zero. `rt.dlt` is truthy when present and
  non-empty. `lastError` is truthy when present and non-empty. The read path follows these
  rules exactly, so a stored empty error message reads as "no journeys".
- Time is an opaque `int` supplied with each commit.
- The upstream call is an explicit `FetchResult`: `Fetched(journey)` holds the board's
  possibly missing list, and `FetchFailed(message)` holds the error text.
- The query parameter arrives already converted by `Number(...)`. `None` stands for a
  missing or `NaN` value.
- A delay is meant to be non-negative, but the code passes any truthy `dlm` through,
  so the model keeps `delayMinutes` an `int`. A negative `dlm` gives
  `delayed` with that negative value.

## Model

| member | source | states |
|---|---|---|
| Journeys.Classify | server.mjs:33-40 | cancelled iff the record carries `Ausfall`; delayed iff not cancelled and `dlm` is present and non-zero; on-time iff neither holds |
| Journeys.Normalise | server.mjs:33-51 | departure/date/tram/from/to are `ti`/`da`/`pr`/`st`/`lastStop` verbatim; `delayMinutes` is `dlm` when it reports a delay, else 0; `realtimeTime` is a non-empty `dlt`, else absent; the result is consistent (delayed has a non-zero delay, on-time has delay 0) |
| Journeys.NormaliseAll | server.mjs:32-52 | the mapping is one-to-one and order-preserving: same length, element i is the normalisation of record i |
| Journeys.NormaliseBoard | server.mjs:30-32 | a missing journey list gives no journeys; otherwise one normalised journey per record, in order |
| Journeys.CancelledWhateverDelay | server.mjs:36-37 | a record marked `Ausfall` is cancelled whatever its `dlm` is |
| Journeys.NormaliseAllAppend | server.mjs:32 | normalising a concatenation is the concatenation of the normalisations |
| Journeys.NormaliseBoardConsistent | server.mjs:35-49 | every journey produced from a board is consistent |
| Journeys.DelayedExample | server.mjs:42-51 | `{ti 08:15, da 2024-01-01, pr T1, st A, lastStop B, rt {dlm 5}}` normalises to a delayed journey with delay 5 and no real-time time |
| Board.ConfiguredIds | server.mjs:16-19 | the configured ids are exactly the evaIds of the configured stations, and include the default (first) one |
| Board.SucceededEntry | server.mjs:54-58 | after a success the entry's journeys are the normalised records, `lastUpdate` is the commit time and `lastError` is absent |
| Board.FailedEntry | server.mjs:70-75 | after a failure `lastError` is the message; journeys and `lastUpdate` are the previous entry's, or empty and absent when there was none |
| Board.CommitEntry | server.mjs:24-77 | a fetch outcome selects the success or failure entry, and the entry invariant (no timestamp implies no journeys and an error) is kept |
| Board.Commit | server.mjs:54-75 | a commit adds only `station.evaId` to the keys, writes the committed entry there, leaves every other station's entry unchanged, and keeps the cache invariant |
| Board.SuccessForgetsPrevious | server.mjs:54-58 | the entry after a success does not depend on the previous entry |
| Board.RepeatedFailureKeepsData | server.mjs:70-75 | a second failure changes only the stored message |
| ReadService.ResolveEvaId | server.mjs:92 | a missing, `NaN` or 0 evaId resolves to the first configured station; any other number is used as given |
| ReadService.Select | server.mjs:95-119 | no entry gives NotLoaded; empty journeys with an error gives FetchError with that message; empty journeys without an error gives NoJourneys; otherwise Ok with `updatedAt` = `lastUpdate` and the stored journeys; each condition holds in both directions |
| ReadService.Read | server.mjs:92-119 | a read is NotLoaded exactly when the resolved station has no entry; an Ok read serves that entry's journeys and timestamp |
| ReadService.HttpStatus | server.mjs:95-119 | 200 exactly for Ok, 500 exactly for FetchError, 404 exactly for NotLoaded and NoJourneys |
| ReadService.StaleDataWins | server.mjs:103-119 | an entry with journeys is served as Ok whatever its `lastError` holds |
| ReadService.OkHasTimestamp | server.mjs:116-119 | in a cache built by commits, an Ok read always carries a timestamp |
| ReadService.ServedJourneysConsistent | server.mjs:116-119 | in a cache built by commits, every served journey is consistent |
| Scheduler.Run | server.mjs:80-83 | any sequence of completed fetches keeps the cache invariant |
| Scheduler.RunKeys | server.mjs:54-75 | the cache's stations after a run are those before plus exactly the ticked ones |
| Scheduler.RunIsPerStation | server.mjs:70-75 | a station's entry after a run depends only on its own previous entry and its own fetch outcomes |
| Scheduler.FailuresKeepSnapshot | server.mjs:70-75 | if every later fetch of a loaded station fails, its journeys and `lastUpdate` stay as they were |
| Scheduler.LatestSuccessKept | server.mjs:54-75 | after a success followed only by failures for that station, the entry holds that success's journeys and time |
| Scheduler.LatestSnapshotServed | server.mjs:92-119 | such a station's reads return Ok with the latest non-empty success's journeys and time |
| Scheduler.StartupTicks | server.mjs:80-81 | the startup loop's own fetches follow configuration order, and each configured station is fetched exactly once |
| Scheduler.StartupTicksCoverStations | server.mjs:80-81 | the startup loop's fetches reach every configured station |
| Scheduler.NeverUnloadedAfterStartup | server.mjs:80-83 | in any run in which every configured station has completed a fetch, as it has once the startup loop ends, whatever interval fetches completed in between, a read that resolves to a configured station never returns NotLoaded, whatever the fetches returned |
| Scheduler.SuccessThenFailureScenario | server.mjs:54-119 | a non-empty success at T1 and then a failure: the read is Ok with the T1 journeys and `updatedAt` T1, and the entry stores the failure message |

## Left out

- Express routing, `res.status(...).json(...)`, static file serving and `app.listen` are HTTP plumbing. Responses are a datatype with an HTTP status, and the JSON bodies are not modelled. The German message texts appear only as constants.
- The `oebb-api` calls (`getStationBoardDataOptions`, `getStationBoardData`) are a foreign network client. Their outcome is an explicit `FetchResult` input.
- `setInterval` and the concurrency between fetches and reads are timers and I/O interleaving. Every commit is atomic in the source, so a run is modelled as a sequence of completed fetches. Fetches still in flight are not modelled.
- `new Date()` is a clock. Time is an `int` parameter.
- `console.log` and `console.error` are logging with no effect on state.
- A malformed board is not a separate input. A null `boardData`, a `journey` that is not an array, or a null record makes the `try` block throw, and the cycle ends in the failure commit. The model reaches the same state through `FetchFailed`.
- `error.message || String(error)` is JavaScript error formatting. A failure carries one message string.
- `dlm` values that are strings, `NaN` or fractions, and query values that are fractions, are JavaScript dynamic-typing corner cases. `dlm` and the query are integers or absent.
- The `/api/stations` listing returns the constant station list. Only that list (`Board.Stations`) is modelled.
