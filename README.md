# Chat-upload job table

A model of the asynchronous job workflow of the backend-for-frontend server in
`index.js`. A client posts a file and a `userQuery` to the chat-upload
endpoint. The server validates the request and stores a job `{ status:
"processing" }` under a fresh uuid. It starts relaying the file to the upstream
AI service without awaiting it, and replies `{ jobId }` at once. When the
upstream call settles, the job is overwritten once with `{ status: "completed",
data }` or `{ status: "failed", error }`. A timer then deletes it after
`JOB_CLEANUP_TIME` (10 × 60 × 1000 = 600000 ms). Clients poll the status
endpoint, which answers the stored record or `404 { error: "Job not found" }`.

Modules:

- `JobRecords` (job_records.dfy): job records, the shape each status requires,
  the retention constant, and the terminal record built from the upstream
  outcome. The outcome is `Success(body)` or `Failure(upstreamMessage,
  transportMessage)`, which stand for `response.data`,
  `error.response?.data?.message` and `error.message`.
- `Handlers` (handlers.dfy): the read-only decisions. These are the intake
  validation and the status lookup, both as pure functions over their inputs
  and the table. The module also holds the status lookup as written (see
  Findings).
- `Lifecycle` (lifecycle.dfy): the whole workflow as a state machine over a
  value. The state holds the table, the `processChatRequest` calls still waiting
  for the upstream reply, the cleanup timers with their deadlines, and a clock.
  Every upload, upstream settlement and clock advance is one step. The lemmas
  speak about whole runs of steps.
- `ChatServer` (chat_server.dfy): the table as an object updated in place. Its
  methods are `CreateJob`, `CleanupJob`, the upload handler, the continuation of
  `processChatRequest`, timer expiry and the status handler. Each method is
  specified by the matching `Lifecycle` step and keeps the table invariant.

How the environment is modelled:

- The uuid that `createJob` draws is a parameter. On an accepted upload it must
  not name a job in the table, because uuid v4 values do not repeat. A refused
  upload draws no uuid, so nothing is required of the parameter then.
- The upstream call is not modelled. Its result is the `Outcome` passed to the
  settlement step.
- Time is an integer clock in milliseconds. A cleanup timer fires as soon as the
  clock reaches its deadline.

Points where the model follows the code as written:

- Cleanup is scheduled only after the terminal write (index.js:196, 202). It is
  never scheduled at creation. A job whose upstream call never settles therefore
  stays `processing` for ever; see `Lifecycle.UnsettledJobNeverExpires`.
- The handler checks only that a file is present (index.js:148). The one-file
  limit and the 10 MiB limit are enforced by the upload middleware before the
  handler runs.

One point where the model does not follow the code as written:

- Every poll in `Lifecycle`, and `ChatServer.JobServer.HandleStatus`, is
  answered by the corrected lookup `Handlers.StatusOf`. The handler as written
  is `Handlers.StatusAsWritten`. It also answers 200 for the twelve names every
  object inherits from `Object.prototype`, such as `constructor` (see Findings).

## Model

| member | source | states |
|---|---|---|
| `JobRecords.FailureMessage` | index.js:198-201 | The failed job's `error` is the upstream `message` when it is present and non-empty (JavaScript `\|\|`). Otherwise it is the transport error's message. It is always one of the two. |
| `JobRecords.TerminalRecord` | index.js:195-201 | The record written when the upstream call settles is terminal and well-formed. It is `completed` exactly on success, and then holds the response body verbatim as `data`. On failure it is `failed`, with `error` chosen by `FailureMessage`. |
| `Handlers.ValidateUpload` | index.js:146-148 | The upload is refused with `userQuery is required` exactly when `userQuery` is missing or empty, whatever the file. It is refused with `File is required` exactly when the query is present and the file is missing. It is accepted exactly when both are present. |
| `Handlers.StatusOf` | index.js:169-174 | The status reply is 404 exactly when the id is not in the table, and its error is then `Job not found`. Otherwise it is 200 with the stored record unchanged. |
| `Handlers.PropertyLookup` | index.js:170 | `jobs[id]` on a plain object yields the job the table owns under that key. For an unowned key, it is defined exactly when the key names an inherited `Object.prototype` member. |
| `Handlers.StatusAsWritten` | index.js:170-173 | The handler as written answers 404 only when the id is neither a job in the table nor an inherited member name. |
| `Handlers.StatusAsWrittenFindsUncreatedJob` | index.js:170-171 | A poll for `constructor` on an empty table gets a 200 from the handler as written. The corrected lookup answers 404. |
| `Handlers.StatusAsWrittenAgreesOnOwnKeys` | index.js:170-173 | For every id that is not an inherited member name, the handler as written and the corrected lookup give the same answer. |
| `Lifecycle.Upload` | index.js:144-160 | A refused upload leaves the state unchanged and replies 400 with the validation message. An accepted upload replies `{ jobId }` with the fresh id and adds exactly that one job, which polls as `processing`. Every other job is unchanged. It records the pending upstream call with the query, the file and the Authorization header. Timers and the clock are untouched. |
| `Lifecycle.Settle` | index.js:177-204 | When the upstream call settles, the job polls as the outcome's terminal record and every other job is unchanged. The call leaves the pending set. The job's cleanup is scheduled exactly `JobCleanupTime` after the write, and no other timer changes. |
| `Lifecycle.AdvanceClock` | index.js:43-47 | When the clock reaches `t`, exactly the jobs whose cleanup deadline is at or before `t` are deleted, along with their timers. Every other job, timer and pending call is unchanged. |
| `Lifecycle.StartupSatisfiesInv` | index.js:23 | The empty table at process start satisfies the table invariant. |
| `Lifecycle.StepPreservesInv` | index.js:36-47 | Every upload, settlement and clock advance keeps the table invariant. Each record has the fields its status allows. A job is `processing` exactly while its upstream call is pending, and terminal exactly while its cleanup is scheduled. That cleanup lies in the future, at most 600000 ms ahead. |
| `Lifecycle.RunPreservesInv` | index.js:36-47 | Every feasible run of events from a state satisfying the invariant ends in a state satisfying it. |
| `Lifecycle.TerminalJobRetainedUntilDeadline` | index.js:43-47 | A job whose cleanup is scheduled is terminal. Until the clock reaches its deadline, polls return its record unchanged (a terminal record never reverts). From the deadline on, polls return 404. |
| `Lifecycle.SettledJobExpiresAfterCleanupTime` | index.js:24 | After the upstream call settles, polls return the terminal record while less than 600000 ms has passed since the write. From then on they return 404. |
| `Lifecycle.UnsettledJobNeverExpires` | index.js:196 | A job whose upstream call has not settled polls as `{ status: "processing" }` however much time passes, because cleanup is only scheduled after the terminal write. |
| `Lifecycle.UncreatedJobNotFound` | index.js:171 | Under the corrected lookup, an id that no accepted upload created polls as 404 after any run of events. This covers ids never issued and uploads refused by validation. |
| `ChatServer.JobServer.constructor` | index.js:23 | The server starts with an empty job table, no pending calls and no timers, and satisfies the invariant. |
| `ChatServer.JobServer.CreateJob` | index.js:36-40 | `createJob` adds exactly one entry, `{ status: "processing" }` under the fresh id, and returns that id. Every other entry is unchanged. |
| `ChatServer.JobServer.CleanupJob` | index.js:43-47 | `cleanupJob` schedules deletion of exactly that job, `JobCleanupTime` after the current time, and changes nothing else. |
| `ChatServer.JobServer.HandleUpload` | index.js:144-160 | The upload handler changes the table and replies exactly as `Lifecycle.Upload` says, and keeps the invariant. |
| `ChatServer.JobServer.CompleteChatRequest` | index.js:194-203 | The continuation of `processChatRequest` writes the success or failure record and then calls `cleanupJob`, exactly as `Lifecycle.Settle` says, and keeps the invariant. |
| `ChatServer.JobServer.Tick` | index.js:44-46 | Due timers delete their jobs exactly as `Lifecycle.AdvanceClock` says, and the invariant is kept. |
| `ChatServer.JobServer.HandleStatus` | index.js:169-174 | The status handler answers under the corrected lookup `Handlers.StatusOf` and modifies nothing. |

## Left out

- The OAuth token endpoints (index.js:50-99) and the register and login relays (index.js:102-138) are not modelled. They only forward HTTP requests.
- `isEmptyObject` (index.js:19-21) is not modelled. It is JavaScript reflection, used only by those relays.
- Building the multipart body and calling the upstream service (index.js:179-193) are not modelled. Only the outcome of that call is.
- The multer upload limits (index.js:27-33) are not modelled. The middleware enforces them before the handler runs.
- uuid generation is not modelled. The fresh id is a parameter, required not to name a job in the table when the upload is accepted.
- `ChatServer.JobServer.Tick`: timers fire exactly at their deadline. `setTimeout` only promises the callback runs no earlier than the delay; lateness past the deadline is not modelled.
- `Lifecycle.AdvanceClock`: same assumption; a due timer deletes its job as soon as the clock reaches the deadline.
- `Lifecycle.TerminalJobRetainedUntilDeadline`: its "404 from the deadline on" half rests on timers firing exactly at their deadline.
- `Lifecycle.SettledJobExpiresAfterCleanupTime`: its "404 once 600000 ms have passed" half rests on timers firing exactly at their deadline.
- Concurrency of the event loop is not modelled. Requests, settlements and timer callbacks are taken one at a time.
- The generic 500 catch path (index.js:161-164), CORS and JSON middleware, `app.listen` and console logging are not modelled.
- `Handlers.ValidateUpload`: `userQuery` is a single optional string. A query string that repeats the parameter yields an array in Express, and arrays are always truthy; this case is not modelled.
- `JobRecords.FailureMessage`: the upstream `message` is an optional string. Other JSON values there are not modelled; by truthiness they would be preferred or skipped in the same way.

## Findings

| source | as written | input that shows it | evidently intended | confidence | as-written member | corrected member |
|---|---|---|---|---|---|---|
| index.js:170-171 | `jobs[req.params.jobId]` reads a plain `{}` object, so inherited `Object.prototype` members are found as well as the table's own jobs. Any truthy result is sent back with 200. | `GET /api/bff/users/xstore-chatgpt/status/constructor` (likewise `__proto__`, `toString`) before any upload answers 200 instead of 404. | 404 `Job not found` exactly for ids the table does not own. | high on the lookup semantics, not executed | `Handlers.StatusAsWrittenFindsUncreatedJob` | `Handlers.StatusOf` |
