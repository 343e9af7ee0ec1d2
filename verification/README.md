# WaniKani MCP background sync, modelled in Dafny

This project models the background sync service of the WaniKani MCP server, which mirrors a learner's WaniKani data into a local database. It covers four parts:

- **Upsert mappers.** Three functions turn one WaniKani API payload (subject, assignment or review statistic) into a row of a table keyed by the upstream id. Each one inserts or overwrites.
- **One user's incremental sync.** The sync opens a sync log, refreshes the user's profile and mirrors the assignments and review statistics changed since the previous sync. It then closes the log as SUCCESS or ERROR.
- **The fleet pass.** It selects the users due for a sync and syncs each one. It also covers the start/stop flag of the scheduler that runs the pass.
- **The paginated API client.** It builds request URLs and follows `next_url` links until the last page.

The model is functional:

- Every table is a `map<int, Row>`.
- The sync log is an append-only sequence, and a log's id is its position.
- Every Python exception is a `Fault` inside a `Result`.
- An upsert that raises leaves its table untouched, because the session is never committed.
- The upstream API is a script of replies: the k-th request receives the k-th reply. Timestamps are integers (seconds).
- `datetime.fromisoformat` is a parameter `iso: string -> Option<Timestamp>`, called after the `"Z"` → `"+00:00"` replacement.
- One clock reading, `Env.now`, serves a whole fleet pass: the selection cutoff and every stamp of every attempt in it.
- A request's parameters are `Query(after)` for the first request of a collection call and `NoParams` for every later one. `Query(None)` is the empty dict sent when there is no `updated_after`.

Modules, in dependency order:

- `Base`: Option, Result, the fault taxonomy.
- `Text`: `str.replace` and `str.lstrip`.
- `Json`: decoded payloads, and the reads `d.get(k)`, `d[k]` and `d.get(k, False)`.
- `Models`: the enums, the records and their defaults.
- `Client`: the paginated fetch.
- `Upsert`: the three mappers.
- `Sync`: one user's attempt.
- `Fleet`: selection, the pass, start/stop.

Two behaviours of the code shape the model:

- `last_sync` is written during the profile step (src/wanikani_mcp/sync_service.py:146), before the collections are fetched.
- A failed collection fetch is logged and swallowed (src/wanikani_mcp/sync_service.py:189-191 and 223-224), so the attempt still ends SUCCESS.

## Model

| member | source | states |
|---|---|---|
| Text.NormalizeZ | src/wanikani_mcp/sync_service.py:273-275 | after the `"Z"` → `"+00:00"` replacement no `Z` remains; text without a `Z` is unchanged |
| Text.ReplaceWithoutOccurrence | src/wanikani_mcp/wanikani_client.py:68 | `replace` leaves a string without an occurrence of the pattern unchanged |
| Text.ReplaceLeading | src/wanikani_mcp/wanikani_client.py:68 | a leading occurrence of the pattern is replaced and the scan continues after it |
| Text.ReplaceEliminatesChar | src/wanikani_mcp/sync_service.py:273-275 | replacing a one-character pattern by text without that character removes every occurrence |
| Text.LStrip | src/wanikani_mcp/wanikani_client.py:25 | `lstrip('/')` returns a suffix that does not start with `/`, and everything stripped was `/` |
| Json.Field | src/wanikani_mcp/sync_service.py:257 | `d[k]` returns the value exactly when the key is present and raises KeyError otherwise |
| Json.IntField | src/wanikani_mcp/sync_service.py:324 | an integer column is read exactly when the key holds an integer, and gets that integer |
| Json.BoolField | src/wanikani_mcp/sync_service.py:437 | a boolean column is read exactly when the key holds a boolean, and gets that boolean |
| Json.StringField | src/wanikani_mcp/sync_service.py:125 | a text column is read exactly when the key holds a string, and gets that string |
| Json.NullableStringField | src/wanikani_mcp/sync_service.py:133 | `d[k]` for a nullable text column needs the key, and gives unset for null and the text for a string; anything else raises |
| Json.NullableIntField | src/wanikani_mcp/sync_service.py:134-136 | `d[k]` for a nullable integer column needs the key, and gives unset for null and the number for an integer; anything else raises |
| Json.FlagOrFalse | src/wanikani_mcp/sync_service.py:367 | `d.get("hidden", False)` is false when absent and otherwise demands a boolean and returns it |
| Json.ParseTime | src/wanikani_mcp/sync_service.py:273-275 | a timestamp parses exactly when the parser accepts the Z-normalised text, and gives its value |
| Json.OptionalTime | src/wanikani_mcp/sync_service.py:325-331 | `parse(d[k]) if d.get(k) else None` succeeds exactly when the value is falsy or parseable text; a falsy value is unset |
| Json.RequiredTime | src/wanikani_mcp/sync_service.py:438-440 | a required timestamp needs the key, a string and a parse; the result is the parsed value |
| Models.ParseSubjectType | src/wanikani_mcp/models.py:8-12 | the four subject types and their string values round-trip in both directions |
| Models.ParseSyncStatus | src/wanikani_mcp/models.py:15-18 | success/error/in_progress round-trip in both directions |
| Models.ParseSyncType | src/wanikani_mcp/models.py:21-24 | full/incremental/manual round-trip in both directions |
| Models.SubjectTypeField | src/wanikani_mcp/sync_service.py:376 | a subject-type column is read exactly when the payload holds one of the four subject-type strings, and holds the member with that value |
| Models.NewUser | src/wanikani_mcp/models.py:27-40 | a new user has no `last_sync`, an inactive subscription and every optional column unset |
| Models.NewAssignment | src/wanikani_mcp/models.py:75-89 | a new assignment has all six lifecycle timestamps unset, `hidden` false and no update stamp |
| Models.NewReviewStatistic | src/wanikani_mcp/models.py:111-127 | every counter and `percentage_correct` start at 0 and `hidden` at false |
| Models.NewSyncLog | src/wanikani_mcp/models.py:182-190 | a new log has `records_updated` 0, no error message and no `completed_at` |
| Models.Succeed | src/wanikani_mcp/sync_service.py:229-238 | closing a log as SUCCESS sets the count and `completed_at` and keeps owner, type and start |
| Models.Fail | src/wanikani_mcp/sync_service.py:240-250 | closing a log as ERROR sets the message and `completed_at` and keeps owner, type and start |
| Client.RequestUrlShape | src/wanikani_mcp/wanikani_client.py:25 | a request URL is the base, one `/`, and the endpoint with all its leading `/` removed |
| Client.NextUrlRoundTrip | src/wanikani_mcp/wanikani_client.py:66-68 | a next URL under the base is reduced to its path, and that path rebuilds the same URL |
| Client.Receive | src/wanikani_mcp/wanikani_client.py:26-28 | a reply yields its body exactly when it arrived with a 2xx status; anything else raises |
| Client.Extension | src/wanikani_mcp/wanikani_client.py:65 | `list.extend` appends a list's elements in order, or a string's characters one by one as one-character strings; objects, null, numbers and booleans raise (Python would extend by an object's keys; see Left out) |
| Client.DecodedPage | src/wanikani_mcp/wanikani_client.py:64-69 | a page decodes exactly when `data` is a list or text and `pages.next_url` exists and is falsy or text; the page holds what `extend` appends, and the next path is the one rebuilt from `next_url`, or empty when it is falsy; an object `data` raises (see Left out) |
| Client.Follow | src/wanikani_mcp/wanikani_client.py:63-69 | the first request goes to the loop's current URL with the current params; at most one request per scripted reply plus one |
| Client.GetCollection | src/wanikani_mcp/wanikani_client.py:53-71 | the `while url` loop sends the same requests and returns the same list or fault as the recursive definition |
| Client.FollowPage | src/wanikani_mcp/wanikani_client.py:63-69 | one loop step on a page: a request to the current URL, then either the end (empty `next_url`) or the rest of the loop with no params, its data in front |
| Client.OnlyFirstRequestFiltered | src/wanikani_mcp/wanikani_client.py:56-58 | only the first request carries the `updated_after` params; every later request has none |
| Client.ChainCollected | src/wanikani_mcp/wanikani_client.py:60-71 | served a chain of pages, the call returns the pages' data concatenated in order, with one request per page |
| Client.ChainFollowsNextUrls | src/wanikani_mcp/wanikani_client.py:66-69 | each request after the first goes to the URL rebuilt from the previous page's `next_url` |
| Client.NoPageRaises | src/wanikani_mcp/wanikani_client.py:26-28 | a request answered by a failed status, an undecodable body or nothing at all ends the loop with an error after that one request |
| Client.BrokenChainRaises | src/wanikani_mcp/wanikani_client.py:26-28 | a failed or undecodable page raises out of the call, with no partial list and no retry |
| Upsert.ParseLifecycle | src/wanikani_mcp/sync_service.py:325-366 | the six lifecycle timestamps read exactly when each is falsy or parseable; absent ones become unset |
| Upsert.UpsertAssignment | src/wanikani_mcp/sync_service.py:309-413 | a falsy id is a no-op; the error cases are stated exactly; update overwrites the stage, timestamps, `hidden` and stamp but keeps owner, subject and creation; insert takes the owner and the subject; no other row changes |
| Upsert.AssignmentReplay | src/wanikani_mcp/sync_service.py:320-369 | re-applying a payload reproduces the row with only the local update stamp moved |
| Upsert.LifecycleDetermined | src/wanikani_mcp/sync_service.py:325-366 | two readings of the same payload give the same six lifecycle timestamps |
| Upsert.ParseCounters | src/wanikani_mcp/sync_service.py:424-435 | the counters are read exactly when all eight keys hold integers, and each comes from the key of the same name |
| Upsert.UpsertReviewStatistic | src/wanikani_mcp/sync_service.py:415-465 | the id is required; the call succeeds exactly when the id is an integer and the payload has integer counters and percentage, a boolean `hidden` and a parseable `data_updated_at`, plus an integer subject id and a valid subject type when the row is new; the row under the id carries the payload's counters, percentage, flag and upstream stamp; update keeps owner, subject and creation; no other row changes |
| Upsert.ReviewStatisticReplay | src/wanikani_mcp/sync_service.py:436-440 | re-applying a statistic payload changes nothing at any clock |
| Upsert.UpsertSubject | src/wanikani_mcp/sync_service.py:252-307 | a missing id raises KeyError; the call succeeds exactly when the id is an integer, `level`, `slug`, `meanings` and `document_url` are there with their types, `characters` is null or text, both timestamps are readable, and a new row has a valid `object`; insert-or-overwrite under the id; update keeps the object type and creation and replaces `hidden_at` only for a truthy value; insert leaves it unset otherwise |
| Upsert.SubjectHiddenAtSticks | src/wanikani_mcp/sync_service.py:276-279 | an update never clears a subject's `hidden_at` |
| Upsert.SubjectReplay | src/wanikani_mcp/sync_service.py:259-279 | re-applying a subject payload changes nothing, whatever the clock |
| Sync.ApplySubscription | src/wanikani_mcp/sync_service.py:131-144 | the block is read exactly when it is an object with a boolean `active`, `type` null or text, `max_level_granted` null or an integer, and a falsy or parseable `period_ends_at`; the three columns take those values; `period_ends_at` becomes the parsed value when truthy and is kept otherwise; nothing else changes |
| Sync.ApplyProfile | src/wanikani_mcp/sync_service.py:123-146 | the profile applies exactly when the body has an object `data` whose `username` is text, `level` an integer and `profile_url` present and null or text, and a truthy subscription block applies; username, level and profile URL come from `data`; credentials and creation are kept; a falsy subscription changes nothing and a truthy one gives what `Sync.ApplySubscription` gives; `last_sync` becomes now |
| Sync.SyncProfile | src/wanikani_mcp/sync_service.py:121-149 | the step succeeds exactly when the reply is a 2xx and, if the user's row exists, the profile applies to it; the row then becomes what `Sync.ApplyProfile` gives; it counts one record exactly when the row exists; no other row changes |
| Sync.SubscriptionReplay | src/wanikani_mcp/sync_service.py:131-144 | applying a subscription block to the row it produced gives that row again |
| Sync.ProfileReplay | src/wanikani_mcp/sync_service.py:123-146 | applying the same profile payload to the row it produced reproduces that row with only `last_sync` moved |
| Sync.Unwrap | src/wanikani_mcp/sync_service.py:171-176 | a non-object raises; a falsy id is skipped; otherwise the body (`data`, or the envelope itself) gets the top-level id copied in: its keys are the body's plus `id`, and every other key keeps the body's value |
| Sync.UpsertRecord | src/wanikani_mcp/sync_service.py:177 | an assignment record goes to the assignment upsert and a statistic record to the statistic upsert: it succeeds exactly when that upsert does and stores that upsert's table; each writes only its own table |
| Sync.ApplyItem | src/wanikani_mcp/sync_service.py:169-191 | an iteration counts a record exactly when the envelope unwraps to a body and its upsert returns normally, and then leaves the tables that upsert wrote; otherwise it changes nothing; it skips exactly the falsy-id objects; a failure carries the fault of the step that raised; it touches only its own table |
| Sync.ApplyBatch | src/wanikani_mcp/sync_service.py:169-191 | a record loop writes only the table of its collection |
| Sync.BatchSkipsFalsyIds | src/wanikani_mcp/sync_service.py:171-176 | one outcome per envelope, in order; an envelope is skipped exactly when it is an object with a falsy id |
| Sync.TextDataFails | src/wanikani_mcp/sync_service.py:168-187 | a page whose `data` is text yields one record per character; each raises in its own iteration, so the loop fails them all and writes nothing |
| Sync.BatchWithoutUpsertsIsInert | src/wanikani_mcp/sync_service.py:185-191 | a loop where no upsert went through leaves the store as it was |
| Sync.BatchAppend | src/wanikani_mcp/sync_service.py:169-191 | the loop over a concatenation is the loop over the first part followed by the loop over the second |
| Sync.FailedItemIsInert | src/wanikani_mcp/sync_service.py:185-191 | a record that raises or is skipped leaves the rest of the loop exactly as if it were absent, adding only its own outcome |
| Sync.BatchKeepsUnnamedRows | src/wanikani_mcp/sync_service.py:169-224 | no row is written whose id none of the envelopes carries |
| Sync.CountAppliedBound | src/wanikani_mcp/sync_service.py:175-178 | a loop counts at most one record per envelope, and all of them exactly when every upsert went through |
| Sync.CountAppliedAppend | src/wanikani_mcp/sync_service.py:209-212 | the count of a concatenation of outcomes is the sum of the counts |
| Sync.SyncCollection | src/wanikani_mcp/sync_service.py:161-191 | the block's requests are the fetch's; a failed fetch is swallowed with its fault and changes nothing; a successful one leaves the tables and outcomes of the record loop over the fetched items; users and subjects are never written |
| Sync.CollectionCounts | src/wanikani_mcp/sync_service.py:161-191 | a block ends with the tables of the record loop over what was fetched and counts its applied records, or changes nothing and counts 0 when the fetch failed |
| Sync.MirrorCollections | src/wanikani_mcp/sync_service.py:161-224 | the assignments block then the statistics block: neither writes users or subjects, and the requests are the assignment fetch followed by the statistics fetch |
| Sync.SyncUser | src/wanikani_mcp/sync_service.py:96-250 | one IN_PROGRESS incremental log is opened with the defaults and closed with a terminal status; SUCCESS records the count, ERROR the message; a failed attempt changes no table; only this user's row can change, and on success its `last_sync` is now; subjects are untouched |
| Sync.OnlyProfileRaises | src/wanikani_mcp/sync_service.py:121-224 | the attempt ends in ERROR exactly when the profile step raises, and with that step's fault |
| Sync.AttemptRequests | src/wanikani_mcp/sync_service.py:121-197 | the profile is requested first; when it goes through, the assignments fetch and then the statistics fetch follow, both filtered on the caller's window |
| Sync.AttemptThroughBlocks | src/wanikani_mcp/sync_service.py:121-238 | a successful attempt ends with the tables its two collection blocks left and logs the profile record plus what the blocks counted |
| Sync.BlocksCompose | src/wanikani_mcp/sync_service.py:161-224 | the statistics block runs on the tables the assignments block left; each block writes and counts as its record loop over the fetched items, and nothing when its fetch failed |
| Sync.AttemptComposesSteps | src/wanikani_mcp/sync_service.py:121-238 | on SUCCESS the logged `records_updated` is 1 when the user's row exists, plus the upserts that went through in the assignments loop and in the statistics loop (0 for a failed fetch), and the tables are those the profile step and the two loops leave in turn |
| Sync.IncrementalWindow | src/wanikani_mcp/sync_service.py:116-118 | every request that carries `updated_after` params carries the `last_sync` read before the profile step, not the time that step writes |
| Sync.ApplyBatchAsWritten | src/wanikani_mcp/sync_service.py:169-191 | as written: a non-object first envelope abandons the collection with an UnboundLocalError; otherwise it equals the isolated loop |
| Sync.AsWrittenLosesLaterRecords | src/wanikani_mcp/sync_service.py:186 | with a non-object first envelope the as-written loop keeps the store unchanged, while the isolated loop applies the remaining envelopes |
| Sync.AsWrittenDropsAssignment | src/wanikani_mcp/sync_service.py:186 | a page `[null, new assignment 5]`: as written nothing is stored, isolated the assignment is stored |
| Fleet.DueUsers | src/wanikani_mcp/sync_service.py:64-72 | a user is due exactly when never synced or last synced more than an hour before now |
| Fleet.DueUsersAsWritten | src/wanikani_mcp/sync_service.py:66-72 | as written, only users with a `last_sync` are ever selected, and such a user is selected exactly when the intended selection picks it |
| Fleet.NeverSyncedUserNeverDue | src/wanikani_mcp/sync_service.py:67 | a never-synced user is never selected as written and always selected as intended |
| Fleet.FreshUserIsMissed | src/wanikani_mcp/sync_service.py:67 | a freshly registered user is missed as written and selected as intended |
| Fleet.SyncedUserRestsAnHour | src/wanikani_mcp/sync_service.py:64-72 | after a successful attempt the user is not due again for an hour |
| Fleet.UserTaskBehaves | src/wanikani_mcp/sync_service.py:84-90 | each user's task appends exactly its own closed log and changes no other user |
| Fleet.PassAppendsLogs | src/wanikani_mcp/sync_service.py:89-90 | a pass makes one attempt per user and appends one log per user after the existing ones |
| Fleet.PassLogsEachUser | src/wanikani_mcp/sync_service.py:84-90 | the appended logs belong to the synced users in order and are all closed |
| Fleet.PassKeepsOtherUsers | src/wanikani_mcp/sync_service.py:58-92 | a pass changes no user it does not sync |
| Fleet.SyncAllUsers | src/wanikani_mcp/sync_service.py:58-92 | every due user is attempted once, each gets a closed log, users not due are unchanged, and nothing happens when no one is due |
| Fleet.SyncJob | src/wanikani_mcp/sync_service.py:35-43 | the scheduled job is `sync_all_users` with one instance, coalescing and a 300-second grace |
| Fleet.NewService | src/wanikani_mcp/sync_service.py:25-27 | a new service is not running and has no job scheduled |
| Fleet.Start | src/wanikani_mcp/sync_service.py:29-47 | start is a no-op while running; otherwise it schedules the job, starts the scheduler and sets the flag |
| Fleet.Stop | src/wanikani_mcp/sync_service.py:49-56 | stop is a no-op while stopped; otherwise it shuts the scheduler down and clears the flag |
| Fleet.StartStopKeepConsistent | src/wanikani_mcp/sync_service.py:29-56 | the flag is set exactly when the scheduler has been started once more than shut down |
| Fleet.StartStopIdempotent | src/wanikani_mcp/sync_service.py:31-32 | starting twice is starting once, and stopping twice is stopping once |

## Left out

- Concurrency is left out: the asyncio semaphore, `gather` and the scheduler's own timing. The fleet pass is a sequential fold in an order the caller chooses. Concurrent attempts of two users could interleave their writes to shared assignment rows; the model does not represent that.
- Restarting after `stop` is left out. Whether a second `start` succeeds depends on how the scheduler library treats a job id that is already registered. That library is not part of this model, so `Fleet.Start` only records what the service asks of it.
- The database engine and sessions are left out. Each upsert is one atomic map update, and an exception discards it.
- Logging is left out, including the progress message every 500 records. HTTP headers, timeouts and `close` are also left out.
- Configuration, authentication and the MCP/HTTP servers are left out.
- `datetime.fromisoformat` and `datetime.now` are left out. The parser is a parameter, and one clock reading serves the selection cutoff and every attempt of a pass, although the source calls `datetime.now` separately for the cutoff, for `started_at`, `last_sync` and `completed_at` of each attempt, and for each upsert.
- Column types are enforced strictly: a JSON value of the wrong type for its column is a per-record failure. The database might have coerced some of these values instead.
- Floats are left out, and so are response bodies that are not JSON.
- The subject collection is not synced, because its call is commented out in the source. `Upsert.UpsertSubject` is modelled on its own.
- Sync.SyncUser: does not model the `str(e)` text of exceptions other than KeyError; other faults are rendered by a label of the model's own.
- Sync.SyncUser: composes the corrected record loop `Sync.ApplyBatch`, not the as-written `Sync.ApplyBatchAsWritten`, so its contract and `Sync.AttemptComposesSteps` describe per-record isolation; what the as-written loop does to one collection is stated only by `Sync.ApplyBatchAsWritten` and its lemmas.
- Fleet.SyncAllUsers: requires its order to list the corrected `Fleet.DueUsers` selection, not the as-written `Fleet.DueUsersAsWritten`, so it describes a pass over the users the code evidently means to select.
- Client.Extension: an object value raises, although `list.extend` would append its keys. A map keeps no key order, so the model cannot reproduce the order of those keys.
- Client.DecodedPage: a page whose `data` is an object is therefore undecodable, although the source would extend by its keys and go on to the next page. `Client.NoPageRaises` and `Client.BrokenChainRaises` count such a page among the undecodable ones.
- Client.Follow: a request beyond the scripted replies gets no response. This keeps the loop total and stands in for a server that keeps linking to further pages.

## Findings

| source | as written | input that shows it | evidently intended | confidence | as-written member | corrected member |
|---|---|---|---|---|---|---|
| src/wanikani_mcp/sync_service.py:67 | `select(User).where(User.last_sync is None)` tests the column object's identity in Python, which is False, so the query returns no rows | a freshly registered user with no `last_sync` | users that have never synced are selected (the comment on line 65 says so) | high, not executed | Fleet.DueUsersAsWritten (Fleet.FreshUserIsMissed) | Fleet.DueUsers |
| src/wanikani_mcp/sync_service.py:186 | the per-record handler logs `assignment_id`; if the first envelope is not a dict, `.get` raises before the name is bound, the handler raises UnboundLocalError, and the whole collection is abandoned (same for `stats_id`, line 220) | assignments page `[null, {"id": 5, "data": {...new assignment...}}]` | the bad record is logged and skipped, and later records are still applied | medium, not executed | Sync.ApplyBatchAsWritten (Sync.AsWrittenDropsAssignment) | Sync.ApplyBatch |
