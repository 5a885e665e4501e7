# Job submission and status tracking, modelled in Dafny

This project models the document gateway's job-submission protocol: the
`Upload` and `Status` handlers of `DocumentHandler` and the `Job` record they
build.

`Upload` accepts a file upload. It saves the file to a temporary path and
writes the status `"Pending"` under `"job:" + id` with a 24-hour TTL. It then
serialises the job and appends one message, keyed by the job id, to the job
queue. If the append fails, it overwrites the status with `"Failed"`.
`Status` reads `"job:" + id` back. It answers 404 when the key is absent,
500 on any other read error, and 200 with the stored value otherwise.

Each handler is a pure function. It takes the shared state (status store and
job queue), the request, and the injected outcome of every external call. It
returns the new state, the HTTP response and the trace of calls it made.

Modules, one per component:

- `Outcomes`: what a collaborator reports for one call (`Ok` or `Err(msg)`).
- `JobRecord` (internal/job/job.go): the `Job` record and its constructor `New`.
- `StatusStore`: the key-value store as `map<string, Entry>`, with `Set` and
  `Get`. `Get` distinguishes a value, the "no such key" error (`redis: nil`)
  and any other error.
- `JobQueue`: the queue as one `seq<Message>`, with single-message `Append`
  and the per-key view `MessagesFor` (the messages of one key, in append
  order). Partition assignment is not modelled.
- `Effects`: the shared `State`, the `Call`/`Effect` trace entries, and
  `Apply`. `Apply` replays a trace against a state call by call. It is defined
  independently of the handlers, so it serves as the reference semantics for
  a handler's state change.
- `DocumentHandler` (src/gateway/internal/handlers/document_handlers.go):
  `Upload` and `Status`, the key and temp-path construction, the trace
  predicates (write-ahead, file saved first, fail-stop with one compensation),
  and one lemma per failure class.
- `Submissions`: sessions of many uploads handled one after another.
  - The queue grows by exactly the accepted requests' messages, in call order,
    so the messages of one job id are appended in call order.
  - The final state is the replay of all calls.
  - When every id is fresh, the store and the queue stay in agreement: every
    queued job has an entry that reads `Pending`.

Injected, not computed:

- The job id. `uuid.New` is a parameter.
- The clock reading stored in `CreatedAt`.
- The JSON encoder: a total function `Job -> Encoding` that may fail.
- The outcomes of opening, creating and copying the upload, of both store
  writes, of the queue write, and of the store read.

## Model

| member | source | states |
|---|---|---|
| JobRecord.New | internal/job/job.go:13-21 | The new job holds `id`, `filename`, `filepath` and the clock reading unchanged, and its status is `Pending` whatever the arguments |
| JobRecord.NewRoundTrip | internal/job/job.go:15-19 | Reading the fields back from a new job returns exactly the constructor's arguments |
| JobRecord.NewReachesEveryPendingJob | internal/job/job.go:13-21 | A record is the constructor's result on its own fields if and only if its status is `Pending` |
| JobRecord.NewInjective | internal/job/job.go:13-21 | Two constructions give equal jobs if and only if their arguments are equal |
| StatusStore.Set | src/gateway/internal/handlers/document_handlers.go:66 | A successful SET makes the key hold the value and TTL, adds no other key and keeps every other key's entry; a failed SET changes nothing |
| StatusStore.Get | src/gateway/internal/handlers/document_handlers.go:102-114 | A read returns the value if and only if the store is reachable and the key is present, Nil if and only if reachable and absent, and an error if and only if unreachable; that error carries the store's own message |
| StatusStore.GetAfterSet | src/gateway/internal/handlers/document_handlers.go:66 | A successful SET is seen by the next GET of that key |
| StatusStore.GetOtherAfterSet | src/gateway/internal/handlers/document_handlers.go:66 | A SET never changes what a GET of another key returns |
| JobQueue.Append | src/gateway/internal/handlers/document_handlers.go:80-83 | A successful write adds exactly the message at the end and keeps the earlier log; a failed write leaves the log unchanged |
| JobQueue.MessagesForConcat | src/gateway/internal/handlers/document_handlers.go:80-83 | The messages of a key in an extended log are its old messages followed by the new ones, in order |
| JobQueue.AppendKeepsKeyOrder | src/gateway/internal/handlers/document_handlers.go:80-83 | An append adds the message at the end of its own key's sequence and leaves every other key's sequence unchanged |
| JobQueue.MessagesForSameKey | src/gateway/internal/handlers/document_handlers.go:81 | A log whose messages all carry one key equals that key's messages in append order |
| DocumentHandler.Upload | src/gateway/internal/handlers/document_handlers.go:35-98 | Gives 400 exactly when the file is missing, otherwise 500 or 202. Error bodies hold only `error`. 202 carries `job_id` = id and `status` = Pending. The queue grows by one message, `Message(id, encoded job)`, exactly on 202 and is otherwise unchanged. Only `"job:"+id` may change, and only to `Pending` or `Failed` with the 24h TTL. On 202 it holds `Pending` |
| DocumentHandler.Status | src/gateway/internal/handlers/document_handlers.go:100-120 | Never changes the state and makes exactly one GET of `"job:"+job_id`. Answers 404 if and only if the store is reachable and the key is absent, 500 if and only if the read fails, and 200 if and only if the key is present, with the echoed `job_id` and the stored value verbatim. The 404 body is exactly `job not found: redis: nil` and the 500 body exactly `internal server error: <err>` |
| DocumentHandler.UploadReplays | src/gateway/internal/handlers/document_handlers.go:35-98 | The state after an upload equals the independent replay of its recorded calls, so the handler touches the store and queue only through those calls |
| DocumentHandler.ReplayBeforePending | src/gateway/internal/handlers/document_handlers.go:37-71 | An upload that stops before its Pending write succeeds leaves store and queue as they were |
| DocumentHandler.UploadCallOrder | src/gateway/internal/handlers/document_handlers.go:43-91 | Every store or queue call follows a successful copy of the upload. Every queue write follows a successful SET of `Pending` under its job's key. The first failure ends the trace, except a failed queue write, which is followed by exactly one SET of `Failed` under the same key. Every call concerns the submitted job, and no call reads the store |
| DocumentHandler.UploadFollowsProtocol | src/gateway/internal/handlers/document_handlers.go:43-91 | Apart from a trailing compensation, an upload's calls are a prefix of the fixed sequence open, create, copy, SET Pending, serialise, queue write for its job. Every call but the last succeeded, and the last succeeded only when all six ran. A SET of `Failed` follows exactly a failed queue write and is the only extra call |
| DocumentHandler.UploadCallsDistinct | src/gateway/internal/handlers/document_handlers.go:43-91 | No call is repeated in an upload, so there is at most one SET of `Pending`, one queue write and one SET of `Failed` |
| DocumentHandler.JobKeyInjective | src/gateway/internal/handlers/document_handlers.go:66 | `"job:"+a` equals `"job:"+b` if and only if `a` equals `b` |
| DocumentHandler.TempPathInjective | src/gateway/internal/handlers/document_handlers.go:50 | For ids of equal length, `/tmp/<id>_<filename>` determines both the id and the file name |
| DocumentHandler.TempPathCollidesForUnequalIds | src/gateway/internal/handlers/document_handlers.go:50 | Without equal-length ids the temp path can collide (`a` + `b_c` versus `a_b` + `c`) |
| DocumentHandler.MissingFileRejected | src/gateway/internal/handlers/document_handlers.go:37-41 | A missing file gives 400 `file is required`, with no call and no state change |
| DocumentHandler.FileFailureTouchesNothing | src/gateway/internal/handlers/document_handlers.go:43-63 | A failure to open, create or copy gives 500 with that step's message. No call mutates the store or queue, and the state is unchanged |
| DocumentHandler.PendingWriteFailureNoEnqueue | src/gateway/internal/handlers/document_handlers.go:65-71 | A failed Pending write gives 500 `internal server error: <err>`. The state is unchanged and there is no queue write |
| DocumentHandler.EncodeFailureLeavesPending | src/gateway/internal/handlers/document_handlers.go:73-78 | An encoder failure after the Pending write gives 500 `internal server error: <err>`. The queue is unchanged, there is no compensation, and the key holds `Pending` |
| DocumentHandler.QueueFailureCompensates | src/gateway/internal/handlers/document_handlers.go:80-91 | A failed queue write gives 500 `failed to queue job`, with the queue unchanged. The last call is SET `Failed` with the 24h TTL. The key holds `Failed` if that write succeeded and `Pending` otherwise |
| DocumentHandler.CompensationOutcomeIgnored | src/gateway/internal/handlers/document_handlers.go:84-91 | The compensating write's outcome never changes the response |
| DocumentHandler.AcceptedUpload | src/gateway/internal/handlers/document_handlers.go:93-97 | A fully successful upload answers 202 with message, `job_id` and `Pending`. `"job:"+id` holds `Pending` with the 24h TTL, and the queue gains exactly `Message(id, encoded job)` |
| DocumentHandler.QueuedJobMatchesStatusKey | src/gateway/internal/handlers/document_handlers.go:49-52 | The serialised job has ID `id`, FilePath `"/tmp/" + id + "_" + filename` and status Pending, and its id is the suffix of the status key |
| DocumentHandler.StatusIsReadOnly | src/gateway/internal/handlers/document_handlers.go:100-120 | Replaying a status query's calls changes no state |
| DocumentHandler.StatusRepeatable | src/gateway/internal/handlers/document_handlers.go:100-120 | A repeated query with no write in between returns an identical result |
| DocumentHandler.SubmitThenQuery | src/gateway/internal/handlers/document_handlers.go:93-119 | After an accepted upload, querying its id gives 200 `Pending`. An id never written gives 404 `job not found: redis: nil` |
| DocumentHandler.CompensatedJobReadsFailed | src/gateway/internal/handlers/document_handlers.go:84-91 | After a compensated queue failure, the job's status query gives 200 `Failed`, never 404 |
| DocumentHandler.UploadLeavesOtherJobsAlone | src/gateway/internal/handlers/document_handlers.go:66 | An upload never changes any other job id's status answer |
| DocumentHandler.StatusEntryIffPendingWritten | src/gateway/internal/handlers/document_handlers.go:66-71 | For a new id, an entry exists after the upload if and only if its Pending write succeeded. No existing entry is removed |
| Submissions.Run | src/gateway/internal/handlers/document_handlers.go:35-98 | Over a session, there is one response per request. The old queue is a prefix of the new one, which is longer by exactly the number of 202 responses |
| Submissions.EnqueuedIsStateIndependent | src/gateway/internal/handlers/document_handlers.go:80-83 | An upload appends the same message (at most one, keyed by its id) whatever state it meets |
| Submissions.RunQueue | src/gateway/internal/handlers/document_handlers.go:80-83 | A session appends exactly its requests' messages, in call order |
| Submissions.PerKeyOrder | src/gateway/internal/handlers/document_handlers.go:81 | After a session, every job id's messages in append order are its old messages followed by the session's messages for that id, in call order |
| Submissions.ResubmissionsInCallOrder | src/gateway/internal/handlers/document_handlers.go:80-83 | Two accepted requests with the same id append one message each for that id, in call order |
| Submissions.RunReplays | src/gateway/internal/handlers/document_handlers.go:35-98 | The state after a session equals the replay of all its calls |
| Submissions.UploadPreservesSynced | src/gateway/internal/handlers/document_handlers.go:66-91 | Holds on every path, compensation included, for an upload with a fresh id. Every stored status stays `Pending` or `Failed`, and every queued job keeps an entry reading `Pending` |
| Submissions.RunPreservesSynced | src/gateway/internal/handlers/document_handlers.go:66-91 | A session of uploads with fresh, distinct ids keeps every queued job's entry at `Pending` and never `Failed` or absent |
| Submissions.ReusedIdCanDiverge | src/gateway/internal/handlers/document_handlers.go:49 | Fresh ids are necessary: a reused id whose queue write fails is compensated to `Failed` while its earlier message is still queued |

Where the system's intended design and the code differ, the model follows the code:

- A status entry is not created by every attempted submission. It exists
  only when the Pending write succeeded (`StatusEntryIffPendingWritten`).
- An encoder failure after the Pending write is not compensated. The job
  stays `Pending` until its TTL expires with nothing queued
  (`EncodeFailureLeavesPending`).
- Failed responses never carry a `job_id`.
- Messages of one job are not routed to one partition. The queue writer is
  built with a least-bytes balancer (src/gateway/cmd/api/main.go:76-80),
  which ignores the message key. The model proves only that the messages
  of one key are appended in call order.
- The temporary file is created before the Pending write. The handler does
  not remove it when a later step fails.

## Left out

- TTL expiry and wall-clock time: the TTL is stored as an opaque number and never counts down, so "expired" is not modelled. `CreatedAt` is a caller-supplied number.
- UUID generation: the id is a parameter. Its uniqueness appears only as freshness premises: `FreshIds` in `RunPreservesSynced`, and `JobKey(id) !in s.store` in `UploadPreservesSynced` and `StatusEntryIffPendingWritten`.
- Partition assignment: the queue is one log, and which partition a message lands in is not modelled. The deployed least-bytes balancer does not route by key, so delivery order across partitions is not promised.
- JSON encoding internals: `json.Marshal` is an injected total function that may fail. Byte layout is not modelled.
- StatusStore.Set: a store write that reports an error is modelled as not applied. A real client can report a timeout after the server applied the write, and that case is not modelled.
- JobQueue.Append: a failed write is modelled as appending nothing. Partial batches and retries inside the queue client are not modelled. A write that reports an error after the broker stored the message is not modelled either. In that case the compensation at src/gateway/internal/handlers/document_handlers.go:85 sets a queued job to `Failed`, so `RunPreservesSynced` holds only because the model leaves that case out.
- The Kafka message key is `[]byte(jobID)`; it is modelled as the id string itself, since the conversion is injective.
- Request parsing: every `FormFile` error is modelled as `Missing`. The upload's content is not modelled, only whether open, create and copy succeed.
- Deferred `Close` calls and all logging (`h.Logger.Error`): they do not affect the response or the state.
- Context cancellation and timeouts: they appear only as an injected call failure.
- Concurrency between requests: every request is one sequential step on the shared state.
- `NewDocumentHandler` and process bootstrap (src/gateway/cmd/api/main.go): connection set-up, health check and routing, with no state or decisions to model.
- The earlier prototype cmd/api/main.go: its serialise and enqueue steps are unimplemented, and its status handler duplicates `Status`.
- Statuses written by the external worker (`Processing`, `Complete`): `Synced` describes the store as the handlers leave it.
