# Farm weather service — a verified model of its core

This project models the three parts of the farm weather service that decide what a
client sees and what reaches the weather table:

- **The `GET /weather` route** (`WeatherRoute`). It validates the coordinates and the
  `hours` parameter in a fixed order. It then applies a per-client sliding-window rate
  limiter of 20 requests per 60 s, looks up a 10-minute response cache keyed by the raw
  query strings, fetches the Open-Meteo forecast on a miss, and normalises the hourly
  arrays into readings for the alert engine. The route's two in-memory maps are the
  fields of class `WeatherRouter`. Its methods state the new maps exactly.
- **The ingestion worker** (`IngestWorker`). For one farm it returns early when a
  coordinate is missing or the payload has no hourly times. Otherwise it builds one row
  per hourly timestamp and inserts the rows in chunks of 100, carrying on past failed
  chunks. For all farms it processes each farm in order, and one farm's failure does not
  stop the rest.
- **The `GET /api/farms/:id/weather` endpoint** (`FarmServer`). It extracts the bearer
  token and resolves the optional user. It answers 404 before 403, and checks ownership
  only when a user was resolved. It computes the `[now, now + hours]` window with
  ECMAScript Date semantics. The persisted-row query is specified by its contract: the
  rows of this farm inside the window, every one of them, sorted by target time.

`OpenMeteo` holds the payload shape both request paths read. `Wrappers` holds
`Option`/`Result`. `Numbers` holds JavaScript numbers as NaN or a finite value, and
the RangeError message of an invalid Date. `Text` holds the first-field helpers that the
cache key and the bearer token both use.

The collaborators become parameters or fields of an environment value:

- the HTTP fetch plus `response.json()`;
- the identity service, the farms lookup and the table insert;
- the clock readings;
- the alert engine;
- `parseFloat`, `parseInt`, `Number` and `toISOString`.

An exception becomes an `Err`, a `Failed` result or a `ServerFailure` carrying the
message.

Two facts about the code that the model keeps:

- The code rejects no payload as malformed when its arrays differ in length. A missing
  array reads as `undefined` on the route, where reading its elements throws. It reads
  as `null` in the worker.
- `cache_hit` is `false` in every response, including cache hits.

The cache key is built from the raw query strings, and `parseFloat` stops at the first
comma. So `lat=1,2&lng=3` and `lat=1&lng=2,3` are two valid requests for different
points that share one key (`DistinctPointsShareKey`), and the second is served the
first one's forecast.

## Model

| member | source | states |
|---|---|---|
| WeatherRoute.Recent | routes/weather.js:38 | pruning keeps every stored instant later than the window start as many times as it was stored, drops the rest, and never grows the list |
| WeatherRoute.RecentCount | routes/weather.js:38-40 | the pruned list is as long as the number of positions inside the window, which is the count the limit compares |
| WeatherRoute.RecentKeepsAll | routes/weather.js:38 | a list whose instants are all inside the window survives pruning whole |
| WeatherRoute.RecentDropsAll | routes/weather.js:35-38 | a list whose instants are all a full window old is pruned to nothing |
| WeatherRoute.Stored | routes/weather.js:38 | `rateLimit.get(ip)`, defaulting to `[]`: the client's stored list, or the empty list for an unknown client |
| WeatherRoute.RateCheck | routes/weather.js:33-47 | a client is admitted iff fewer than 20 stored instants are within the last 60 s; a denial stores nothing; an admission stores the pruned list plus now, at most 20 instants, all within the window |
| WeatherRoute.BurstFrom | routes/weather.js:38-46 | inside one window, after k admitted requests, the remaining 20 - k are admitted and the next one is denied |
| WeatherRoute.TwentyFirstRequestDenied | routes/weather.js:13-14 | 21 requests from a fresh client within 60 s: the first 20 are admitted, the 21st gets 429 |
| WeatherRoute.AdmittedAfterWindowElapses | routes/weather.js:33-46 | once every stored instant is a window old, the next request is admitted and its list restarts as just that instant |
| WeatherRoute.CacheLookup | routes/weather.js:77-79 | a hit iff the key has an entry that is younger than 10 minutes (strictly), and then it is that entry's body |
| WeatherRoute.CacheStore | routes/weather.js:111-114 | the keys gain the stored key, whose entry is the body stamped with now; every other entry is kept |
| WeatherRoute.LookupAfterStore | routes/weather.js:77-81 | after storing a body under a key, a lookup returns it while younger than 10 minutes and misses afterwards; other keys are unaffected |
| WeatherRoute.CacheKey | routes/weather.js:76 | the key is the three raw strings joined by two commas; with comma-free coordinates each of the three can be read back from it |
| WeatherRoute.JoinedReadBack | routes/weather.js:76 | cutting the comma-joined key at its first and second comma gives back lat, lng and hours when lat and lng hold no comma |
| WeatherRoute.CacheKeyInjective | routes/weather.js:76 | for comma-free coordinates, two keys are equal iff the three raw strings are, so "12.5" and "12.50" are cached apart |
| WeatherRoute.DistinctPointsShareKey | routes/weather.js:58-76 | with commas in the coordinates, two valid requests for different points get the same key |
| WeatherRoute.HoursText | routes/weather.js:50-76 | the `hours` text in the key is the raw parameter, or "48" when it is absent (the destructuring default) |
| WeatherRoute.ParsedHours | routes/weather.js:50-60 | `parseInt(hours)` of the raw parameter, or 48 when it is absent |
| WeatherRoute.Validate | routes/weather.js:50-68 | missing or empty lat/lng gives the first 400; then NaN or out-of-range coordinates the second; then NaN or out-of-range hours (absent defaults to 48) the third; the request passes iff all three hold, with the parsed values in range |
| WeatherRoute.Readings | routes/weather.js:88-94 | one reading per time, pairing time i with element i of each field array: a number, null for a JSON null, undefined past its end |
| WeatherRoute.Normalize | routes/weather.js:88-94 | succeeds iff hourly and its times are present and either the times are empty or all four field arrays are present; then holds one reading per time, index-aligned |
| WeatherRoute.BuildResponse | routes/weather.js:83-108 | an upstream failure is reported with its message; a success carries the upstream coordinates, elevation and hourly object, the alerts of the normalised readings, and cache_hit false; it succeeds iff the fetch and the normalisation do |
| WeatherRoute.WeatherRouter.constructor | routes/weather.js:8-12 | both maps start empty and the router invariant holds |
| WeatherRoute.WeatherRouter.CheckRateLimit | routes/weather.js:33-47 | admitted iff fewer than 20 recent instants; an admission replaces only this client's list with the pruned list plus now; a denial changes nothing; the cache and other clients are untouched |
| WeatherRoute.WeatherRouter.CacheGet | routes/weather.js:77-79 | a hit iff the key has an entry younger than the TTL, and then it is that entry's body |
| WeatherRoute.WeatherRouter.CacheSet | routes/weather.js:111-114 | overwrites the entry for the key only, stamped with now; the rate-limit map is untouched |
| WeatherRoute.WeatherRouter.HandleGet | routes/weather.js:49-125 | an invalid request gets its 400 and changes neither map; then 429 with no cache change; then a fresh cached body; then 500 with the failure message and no cache change; otherwise the new body with cache_hit false, stored under the raw-string key |
| OpenMeteo.At | routes/weather.js:90-93 | `a[i]` is the number there, null for a JSON null, and undefined past the end of the array, three distinct values |
| OpenMeteo.FieldAt | workers/fetchWeatherOpenMeteo.js:39-43 | `a?.[i] ?? null` is the value at i when the array is present and long enough, otherwise null |
| IngestWorker.RowAt | workers/fetchWeatherOpenMeteo.js:32-45 | a row carries the farm, its coordinates, both tags, the given target time and the payload, and element i of each field array, or null when the array is absent or too short |
| IngestWorker.BuildRows | workers/fetchWeatherOpenMeteo.js:32-45 | succeeds iff every time converts to an ISO string, else fails with the RangeError message; row i carries the farm, its coordinates, the provider and data-type tags, the ISO form of time i, element i of each field or null, and the whole payload |
| IngestWorker.RowsShareProvenance | workers/fetchWeatherOpenMeteo.js:32-44 | every built row carries the farm id, its coordinates, "open-meteo", "hourly_forecast" and the payload, one row per time |
| IngestWorker.Chunks | workers/fetchWeatherOpenMeteo.js:48-50 | ceil(n/100) chunks, none empty, none over 100, all but the last exactly 100 |
| IngestWorker.ChunksFlatten | workers/fetchWeatherOpenMeteo.js:48-50 | the chunks, concatenated in order, are exactly the rows: no row is lost, repeated or reordered |
| IngestWorker.ChunkIsSlice | workers/fetchWeatherOpenMeteo.js:49-50 | chunk k is `rows.slice(100k, 100k + 100)` |
| IngestWorker.InsertChunks | workers/fetchWeatherOpenMeteo.js:47-56 | every chunk is handed to the insert once and in order, whatever the earlier inserts reported |
| IngestWorker.Ingest | workers/fetchWeatherOpenMeteo.js:12-58 | `fetchAndStore` as a function: it fetches iff both coordinates are present, records one outcome per attempted chunk, and a stored count equals the rows inserted |
| IngestWorker.IngestContract | workers/fetchWeatherOpenMeteo.js:12-58 | no fetch iff a coordinate is missing; a run completes (Stored) iff both coordinates are present, the fetch succeeds, the payload has hourly times and every time converts; a fetch failure or a time that does not convert ends it as Failed with that message; a run that lacks hourly times or throws inserts nothing; a completed run inserts something iff the time array is non-empty, inserts all rows in ceil(n/100) chunks, row i built from time i, and logs n however many inserts failed |
| IngestWorker.FetchAndStore | workers/fetchWeatherOpenMeteo.js:12-59 | runs exactly as the specification function Ingest: missing coordinates skip the fetch, and a stored count equals the number of rows inserted |
| IngestWorker.RunAllFarms | workers/fetchWeatherOpenMeteo.js:64-89 | a failed farms query processes nothing; otherwise each farm, in order, gets exactly one ingestion with `Number`-converted coordinates, whatever became of the farms before it |
| FarmServer.Split | workers/server/index.js:35 | `split(' ')` yields at least one field, at least two when the separator occurs, and no field contains it |
| FarmServer.SplitJoin | workers/server/index.js:35 | joining the fields of a split with the separator gives the header back |
| FarmServer.SplitFirst | workers/server/index.js:35 | the first field of a split is the text before the first separator |
| FarmServer.BearerToken | workers/server/index.js:34-35 | a token exists iff the header starts with "Bearer "; it is the text after the prefix up to the next space, possibly empty |
| FarmServer.GetUserFromToken | workers/server/index.js:17-25 | no user for an empty token or an identity error; a user iff the reply's data holds one, and then it is that user |
| FarmServer.ResolveUser | workers/server/index.js:36 | the identity service is asked iff a non-empty token was extracted; otherwise there is no user |
| FarmServer.Decide | workers/server/index.js:45-46 | 404 iff the lookup errs or finds no farm; 403 iff a farm was found, a user was resolved and the farm's owner is not that user; access otherwise |
| FarmServer.HoursParam | workers/server/index.js:31 | an absent or empty parameter gives 48; any other string is converted by `Number` |
| FarmServer.Trunc | workers/server/index.js:49 | truncation toward zero, within one unit of the argument |
| FarmServer.TimeClip | workers/server/index.js:49 | an instant is a valid Date iff within ±8.64e15 ms of the epoch |
| FarmServer.QueryWindow | workers/server/index.js:48-49 | a window exists iff hours is a number and now + hours·3600000 is within ±8.64e15 ms, otherwise `toISOString` throws; it starts at the first clock reading and ends at that instant truncated toward zero |
| FarmServer.WholeHoursWindow | workers/server/index.js:49 | for whole hours within the Date range the window ends exactly hours·3600000 ms after the second clock reading |
| FarmServer.DefaultWindow | workers/server/index.js:31-49 | without an hours parameter the window is 48 hours long |
| FarmServer.Matching | workers/server/index.js:54-56 | the filtered rows are those of this farm with from ≤ target time ≤ to, each as many times as in the table |
| FarmServer.AnswerContents | workers/server/index.js:51-57 | any answer to the query holds a row iff the table holds it and it is this farm's and inside the window, with as many rows as match |
| FarmServer.InsertByTime | workers/server/index.js:57 | inserting into a time-sorted list keeps it sorted and adds exactly that row |
| FarmServer.SortByTime | workers/server/index.js:57 | the result is in ascending target time and is a permutation of the input |
| FarmServer.SelectWeather | workers/server/index.js:51-57 | the query contract can always be met: the filtered rows, sorted ascending, are an answer |
| FarmServer.HandleFarmWeather | workers/server/index.js:28-61 | 404 iff the farm lookup errs or is empty; 403 iff a resolved user does not own the farm; with access, an invalid window gives 500, a query error gives 500 with its error, otherwise 200 with the farm's id and coordinates and an answer meeting the query contract |
| FarmServer.UnresolvedUserSkipsOwnership | workers/server/index.js:34-46 | a request whose token resolves to no user is answered exactly as one without a header, and never 403 |
| FarmServer.NotFoundBeforeOwnership | workers/server/index.js:39-46 | a missing farm answers 404 whatever the identity service says |

## Left out

- The HTTP requests to Open-Meteo are not modelled: URLs, query strings, `response.ok` and `response.json()`. The model has an abstract outcome, a payload or an error message. The route's unused `hours` argument to `fetchWeatherData` has no effect, so it is not passed.
- `parseFloat`, `parseInt`, `Number` and `Date.prototype.toISOString` are parameters. The model does not reimplement their parsing or formatting. NaN is `None`/`NaN`, and Infinity is treated like an out-of-range value.
- JavaScript numbers are mathematical reals and integers. IEEE rounding of `hours * 3600 * 1000` is not modelled.
- lib/weatherAlerts.js is not part of this model. `generateWeatherAlerts` is an uninterpreted function from readings to alerts, and any exception it throws is not modelled.
- The message of the TypeError raised by reading a missing field array is a fixed string. The engine's exact wording is not modelled.
- Concurrency: the async handlers run to completion one at a time. Interleavings are not modelled, for example two misses of one key both fetching, or a rate-limit update racing another request.
- `req.ip || req.connection.remoteAddress` is taken as one given string. Repeated query parameters, which Express yields as arrays, are not modelled.
- Logging (`console.*`) is not modelled. Neither are the worker's 300 ms pause between farms or its `process.exit` on an uncaught failure.
- The Supabase tables are not modelled as stores. The worker model records the chunks it hands to the insert and each insert's outcome, not the table's contents. `.single()` is modelled as an error or an optional farm, and every error is a 404.
- A farms query that returns neither data nor an error, where `farms.length` throws, is not modelled.
- An exception thrown by the identity service, rather than returned as an error, and the endpoint's generic 500 are not modelled.
- FarmServer.HandleFarmWeather: target times are milliseconds since the epoch rather than ISO strings. The query's order among rows with equal target times is left unspecified. `from` is assumed to be a valid Date, since it is the current instant.
