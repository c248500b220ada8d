# Daily fortune app: a Dafny model of its decision logic

The app hands each visiting device one "fortune" message per calendar day.
The Express server keeps a collection of visit records `(deviceId, date, fortune)`.
`POST /api/get-fortune` rejects a request without a device id.
It returns the stored fortune when that device already drew one today.
Otherwise it draws a new fortune, records it and returns it.
`GET /api/admin-stats` returns every record, newest first, with a count, behind a shared secret.
The React client keeps today's records for the admin table and sorts them newest first.
It dates each record by `updatedAt`, else `createdAt`, else the ObjectId's embedded second.
It also counts the days left until Christmas.

Modules:

- `FortuneServer` (`fortune_server.dfy`) models `backend/index.js`.
  The visit collection is the `seq<Visit>` field of class `VisitStore`.
  `FindOne` is a loop proved against the function `Lookup`.
  `GetFortune` changes the collection, and its contract equates the reply and the new collection with the pure function `HandleGetFortune`.
  The properties of the handler are lemmas about `HandleGetFortune`: idempotence, a new draw on a new day, and "at most one record per (device, date)" over any sequential run.
  `AdminStats` is the secret-gated listing.
- `FortuneClient` (`fortune_client.dfy`) models `frontend/src/App.js`.
  It covers `toggleRow` (class `AdminTable`), `getRealDate`, `isToday`, the admin filter/sort/count pipeline and `getDaysUntilChristmas`.
- `Calendar` (`calendar.dfy`) gives the proleptic Gregorian calendar of JavaScript's `Date`.
  It has day numbers counted from 1970-01-01 and the date of a millisecond moment.
- `ObjectId` (`object_id.dfy`) covers the hex timestamp of an ObjectId.
  It models the ECMAScript `parseInt(s, 16)` algorithm and MongoDB's lower-case fixed-width hex encoding.
- `Sorting` (`sorting.dfy`) holds a filter and a descending insertion sort by an integer key.
  Both server and client use the sort.
- `Wrappers` (`wrappers.dfy`) holds `Option`.

Parameters that stand for I/O:

- "Today" for the server is an opaque date string, as computed for Europe/Sofia.
- The current time is a millisecond count.
- `Math.random()` is `roll / 2^53` with a whole `roll < 2^53`.
- The fortune list (`fortunes.js`, which is not part of this model) is any `seq<string>`.
- The configured admin secret is an `Option<string>`, where `None` is an unset environment variable.

The code identifies a visitor by the device id alone, with no IP or device-model matching.
It rejects a missing device id with 400 rather than mapping it to a shared "unknown" id.
It has no expiry or midnight clear of records; the model has none either.

## Model

| member | source | states |
|---|---|---|
| `FortuneServer.IsFalsy` | backend/index.js:81 | `!deviceId` holds for an absent id and for the empty string. It fails exactly for a present, non-empty id. |
| `FortuneServer.Lookup` | backend/index.js:90 | Finds a record with that device id and date; the model picks the first match in sequence order, which is the only match while the collection keeps at most one record per (device, date). The result is none exactly when no record matches. |
| `FortuneServer.VisitStore.FindOne` | backend/index.js:90 | The scanning loop returns exactly `Lookup` of the collection. |
| `FortuneServer.LookupAppend` | backend/index.js:110-114 | After a record is appended, a lookup that already found a record finds the same one. Otherwise it finds the new record if it matches, and nothing if it does not. |
| `FortuneServer.PickIndex` | backend/index.js:107 | For a non-empty pool, `floor(random * n)` is below `n`. |
| `FortuneServer.PickFortune` | backend/index.js:105-108 | The drawn fortune is an element of a non-empty pool. For an empty pool it is the fixed fallback text. |
| `FortuneServer.EveryIndexDrawable` | backend/index.js:107 | Every index `i < n` is produced by some draw in `[0, 1)`, for `n <= 2^53`. |
| `FortuneServer.HandleGetFortune` | backend/index.js:77-124 | A falsy id gives 400 and an unchanged collection. A revisit returns the fortune of a matching stored record with `isRevisit = true` and writes nothing. A first visit appends exactly `(deviceId, today, message)` at the end and returns that `message` with `isRevisit = false`; the message is from the pool, or is the fallback for an empty pool. |
| `FortuneServer.VisitStore.GetFortune` | backend/index.js:77-124 | The reply and the new collection are those of `HandleGetFortune` on the old collection. The method keeps "at most one record per (device, date)". |
| `FortuneServer.VisitStore.Create` | backend/index.js:110-114 | The collection becomes the old one with the record appended. |
| `FortuneServer.RevisitIsIdempotent` | backend/index.js:90-124 | A second request by the same device on the same day returns the first reply's message with `isRevisit = true`, whatever the new draw and time. It leaves the collection as the first request left it. |
| `FortuneServer.NewDayDrawsAgain` | backend/index.js:86-114 | A device with no record for day 2 gets a fresh draw on day 2. The reply is exactly the one it would get had the day-1 request never happened. |
| `FortuneServer.HandlePreservesAtMostOne` | backend/index.js:90-114 | One request keeps the collection free of two records for the same (device, date). |
| `FortuneServer.RunSequentially` | backend/index.js:77-124 | Handling requests one after another only appends, at most one record per request. |
| `FortuneServer.SequentialRunKeepsAtMostOne` | backend/index.js:90-114 | Any sequential run of requests keeps "at most one record per (device, date)". |
| `FortuneServer.InterleavedFirstVisitsInsertTwice` | backend/index.js:90-114 | If two first visits both look up before either inserts, both lookups miss. Both inserts then leave two records for one (device, date). The index at backend/index.js:38 is not unique, so nothing stops this. |
| `FortuneServer.Listing` | backend/index.js:68-69 | The listing is a permutation of all records, sorted by `createdAt` descending, with `count` equal to the number of records. |
| `FortuneServer.GateAsWritten` | backend/index.js:62 | `secret === ADMIN_SECRET` holds when both are undefined, or both are strings with equal text. |
| `FortuneServer.AdminStatsAsWritten` | backend/index.js:59-69 | The handler as written: 403 exactly when the supplied secret differs from the configured value (either may be undefined), otherwise the full `Listing`. |
| `FortuneServer.UnsetSecretOpensAdminStats` | backend/index.js:62 | With the secret unset, a request without a secret receives every record. |
| `FortuneServer.AdminGate` | backend/index.js:62-64 | The corrected gate never opens when no secret is configured. When one is configured, it agrees with the gate as written. |
| `FortuneServer.VisitStore.AdminStats` | backend/index.js:59-69 | The corrected handler (see Findings). A rejected secret gives 403 and no record data. An accepted one gives every record, newest first by `createdAt`, as a permutation of the collection, with `count` equal to its size. The secret is the store's constant `adminSecret`, set once by the constructor. Whenever a secret is configured, the reply equals the handler as written. |
| `Sorting.SortDesc` | frontend/src/App.js:91-93 | The result is a permutation of the input, ordered by descending key. |
| `Sorting.Filter` | frontend/src/App.js:88-90 | The result is a subsequence of the input (input order kept) that holds exactly the elements satisfying the predicate, with their multiplicities. |
| `Calendar.DateOf` | frontend/src/App.js:75-77 | The (year, month, day) of a moment is a valid calendar date whose day number is the moment's whole-day count since 1970. |
| `Calendar.DateOfDayNumber` | frontend/src/App.js:75-77 | A valid date is recovered from its day number, so the day number determines (year, month, day). |
| `Calendar.CeilDiv` | frontend/src/App.js:43 | `Math.ceil(a / b)` is the least `r` with `a <= r * b`. |
| `ObjectId.ParseIntHex` | frontend/src/App.js:69 | `parseInt(s, 16)` yields NaN or an integer smaller in magnitude than `16^|s|`. |
| `ObjectId.ParseAllHex` | frontend/src/App.js:69 | A non-empty string of hex digits parses to its hexadecimal value. |
| `ObjectId.TimestampMs` | frontend/src/App.js:69 | The ObjectId fallback, `parseInt(id.substring(0, 8), 16) * 1000`, is NaN or a multiple of 1000. |
| `ObjectId.TimestampBounds` | frontend/src/App.js:69 | Eight hex digits decode to a multiple of 1000 in `[0, (16^8 - 1) * 1000]`. |
| `ObjectId.TimestampRoundTrip` | frontend/src/App.js:69 | An id that begins with the 8-digit hex spelling of second `t` decodes to `t * 1000`. |
| `FortuneClient.Toggled` | frontend/src/App.js:59-65 | The new expanded row is null exactly when the clicked row was the expanded one. Otherwise it is the clicked row. |
| `FortuneClient.ToggleTwice` | frontend/src/App.js:59-65 | Clicking a row twice restores the state exactly when the start was null or that row. From another open row, it ends with none open. |
| `FortuneClient.AdminTable.ToggleRow` | frontend/src/App.js:59-65 | `expandedRow` becomes `Toggled` of its old value. It is cleared exactly when it equalled the clicked id. |
| `FortuneClient.RealDate` | frontend/src/App.js:66-70 | Picks `updatedAt` when present, else `createdAt` when present, else the ObjectId fallback. |
| `FortuneClient.RealDateFromObjectId` | frontend/src/App.js:66-70 | A record without timestamps, whose ObjectId was made at second `t`, is dated `t * 1000`. |
| `FortuneClient.IsToday` | frontend/src/App.js:72-79 | `isToday` holds only for a valid date whose day, month and year all equal today's, that is, whose calendar date is today's. |
| `FortuneClient.IsTodayWithinDay` | frontend/src/App.js:72-79 | Equal day, month and year hold exactly when the moment lies in `[midnight today, next midnight)`. |
| `FortuneClient.TodaysStats` | frontend/src/App.js:87-94 | The admin list holds every record dated today with its multiplicity, and nothing else. It is sorted by `getRealDate` newest first, and `count` is its length. |
| `FortuneClient.ChristmasYear` | frontend/src/App.js:37-41 | After December 25 the target is December 25 of next year, counted by `setFullYear(year + 1)`. Otherwise it is `new Date(year, 11, 25)`, which reads years 0 to 99 as 1900 to 1999, and elsewhere is the current year. |
| `FortuneClient.DaysUntilChristmas` | frontend/src/App.js:35-44 | NaN (None) exactly when the target midnight lies outside the Date range of ±8.64e15 ms. Otherwise the rounded-up day difference equals the number of calendar days from today's date to the target Christmas. Outside two-digit years it lies in `[0, 365]` and is 0 exactly on December 25, the case in which the page shows its greeting (frontend/src/App.js:262-264). In a year 0 to 99 before December 26 it exceeds 365. |
| `FortuneClient.ChristmasDistance` | frontend/src/App.js:38-43 | From a valid date outside two-digit years, Christmas lies 0 to 365 days ahead, and 0 days only on December 25. |
| `FortuneClient.TwoDigitYearDistance` | frontend/src/App.js:38 | In a year 0 to 99 before December 26, the countdown runs to a Christmas of 1900 to 1999, more than 365 days ahead. |

## Left out

- Express, CORS, body parsing, `listen`, the `GET /` liveness text, the MongoDB connection and the schema wiring (backend/index.js:1-40, 54-56, 131-132). They are library wiring and I/O.
- Logging (backend/index.js:94-96, 116-118). A number or boolean `deviceId` has no `slice` method, so the log line throws and the reply is 500. On a first visit this happens after the record is stored; on a revisit nothing is written. Arrays and objects take other paths through the database query and `slice`. The model types the id as an optional string, so none of these paths is modelled.
- The 500 replies on storage failure (backend/index.js:70-73, 125-128). They depend on failures of the database.
- `getBgDateString` (backend/index.js:45-52). Its locale and time-zone formatting is replaced by the `today` parameter.
- Concurrency. `findOne` followed by `create` is not atomic, and the index is not unique. Parallel first visits can insert twice, as `InterleavedFirstVisitsInsertTwice` shows. The sequential model does not claim this is prevented.
- `FortuneServer.VisitStore.AdminStats`, `FortuneServer.Listing`: MongoDB does not fix the order of records with equal `createdAt`. These contracts state sortedness and permutation, not one tie order.
- `FortuneServer.VisitStore.AdminStats`: uses the corrected gate, so it refuses the case the source lets through: `ADMIN_SECRET` unset and no `secret` supplied. In every other case it answers as the source does.
- `FortuneServer.PickIndex`: the floating-point product `Math.random() * n` is taken as exact, and the randomness itself is a parameter.
- `FortuneClient.TodaysStats`: `Array.prototype.sort` sorts `filteredToday` in place. The model returns a new sequence, because no other code observes that array. The stability of the JavaScript sort (equal times keep their input order) is not stated. The whole filter uses one `now`, whereas `isToday` reads the clock on each call; a filter that runs across midnight could mix two days.
- `FortuneClient.IsToday`, `FortuneClient.DaysUntilChristmas`: the browser's time zone and daylight-saving time are not modelled. Local time is taken to be UTC.
- `FortuneClient.DaysUntilChristmas`: requires `now` within the Date range, since `new Date()` always yields a valid Date. It does not model `-0`, which `Math.ceil` returns on December 25 and which compares equal to 0.
- `FortuneClient.RealDate`: `updatedAt` and `createdAt` arrive as ISO strings; the model takes them already parsed into milliseconds. `Date`'s range limit of ±8.64e15 ms is not modelled.
- `ObjectId.ParseIntHex`: parsed values are exact integers. JavaScript rounds values above 2^53, which eight digits cannot reach.
- `Snowflakes` (frontend/src/App.js:13-33). It is random, float-valued styling.
- React rendering, `toLocaleTimeString`, the error text set when the admin request fails, `localStorage`/`uuidv4` device ids and the axios calls (frontend/src/App.js:97-130, 133-281).

## Findings

| source | as written | input that shows it | evidently intended | confidence | as-written member | corrected member |
|---|---|---|---|---|---|---|
| backend/index.js:62 | `secret !== ADMIN_SECRET` with `ADMIN_SECRET` read from the environment, possibly undefined | `ADMIN_SECRET` unset and `GET /api/admin-stats` with no `secret` parameter: `undefined !== undefined` is false, so every record is returned | refuse access when no secret is configured | medium, not executed | `FortuneServer.UnsetSecretOpensAdminStats` | `FortuneServer.AdminGate`, used by `FortuneServer.VisitStore.AdminStats` |
