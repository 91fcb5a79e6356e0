# Verified model of the document-processing pipeline

The pipeline accepts PDF documents over an API, keeps jobs in PostgreSQL, sends their ids through a RabbitMQ queue, and
lets any number of workers fetch the raw object from S3, parse it, store the artifact object, and commit the artifact row
together with the COMPLETED status. This project models the life of a job across all of these as one interleaved step
system with the faults the code really meets, proves what holds in every reachable state and over every run, and models
the code itself as classes whose every effect is shown to be a step of that system.

## How the project is organised

- `Keys`: object keys as text. `Schema`: the committed rows and each SQL statement of the repositories.
- `Protocol`: the step system. A `State` holds the tables, every version of every stored object, the broker (ready
  messages as a multiset, and the one unacknowledged message of each consumer), where each worker is in `start`, `_handle`,
  `process` and `_handle_failure`, where each request is in `JobService.create`, who was told to stop, and two history sets:
  `stranded` (a wake-up of the job was lost, perhaps not its last) and `orphaned` (the owner of its claim was lost). Faults are steps or
  parameters of steps: a worker dies anywhere, a commit raises with or without effect, `enqueue` raises QueueException or
  something else with or without effect, an ack or nack raises, the broker takes a message back from a running worker,
  the queue depth is misread, an API process or client disappears.
- `Ownership`, `Wakeups`, `Contents`, `Invariants`: the inductive invariant `Inv`, one small lemma for each way a step can
  change a part of it, and `InvReachable`. `Frames` says what each step leaves alone.
- `Lifecycle`, `Histories`, `Accounting`, `Completion`, `Renderings`, `Permanence`, `Recovery`, `Losses`, `Forgetting`,
  `Episodes`, `Safety`, `Stopping`, `Conservation`, `Totals`, `Measure`, `Termination`, `Backpressure`: the guarantees.
  `Limits`: concrete runs that show where they end.
- `Scripts`, `Requests`: what `_handle` and `JobService.create` do, as functions of an outlook and of the answers they get,
  and laws about these. An `Outlook` fixes, before the code runs, how each of its calls to a service will go: well,
  raising (with or without effect, as the service's own exception or another), or misleading.
- `Infrastructure`, `Effects`, `Cluster`, `Processing`, `Consumer`, `Api`: the code. Every call is counted in a `CallLog`, and
  the contracts of the methods say which calls were made and which steps taken: exactly those of the script, for the states
  that the reads and compare-and-swaps met. These states are ghost results, and the run passed them (`Passed`). Random ids
  are fixed in the same way, one for each call number. `Cluster.System` joins the mutable
  services with the run they amount to. `Await` lets everybody else take any enabled steps, chosen by an arbitrary
  schedule, and the code records each of its own effects as one step. `Sound()` then says three things at every await: the
  recorded events are a run of the step system from the empty state, the services hold what that run's last state says, and
  every faulty step of the running code is matched by a service call that raised or was refused. `deeds` lists the code's own steps in
  that run, and the contracts of the methods say which they add. So every theorem about reachable states
  and runs is a theorem about the states this code passes through (`SoundIsReachable`). The field `model` is that last
  state; the code takes no decision from it.

## Assumptions

- One UPDATE or INSERT together with its commit is one atomic step (row lock, READ COMMITTED); the same holds for the
  artifact upsert, the COMPLETED update and their commit. A statement that raises changes nothing.
- The statements of one transaction are stamped with one clock reading, and the clock never goes back.
- An S3 put is atomic, and rows and objects are never deleted. The parser is a deterministic function of the raw bytes.
- `max_attempts` is at least 1. Prefetch is 1, as `set_qos` asks for. A message the broker has pushed to a reconnected
  consumer that is still busy counts as waiting in the queue. An ack or nack that raises did not reach the broker.
- `queue_depth` answers with the number of ready messages, with 0 when its channel is closed under it, or raises.

## Where the repository's README and its code differ

The model follows the code.

- The repository's README.md:113-114 says that when the database is unavailable at the STARTED commit the message is
  nacked. Only an error of the UPDATE statement is caught (consumer.py:110); the commit runs when the session block is left,
  outside that `try`, so its exception leaves `_handle` and ends the consumer. The message still returns to the queue. The
  run: `CommitErrorIsNotNacked`, beside `UpdateErrorIsNacked`.
- Its README.md:33 says the message is always acked on failure. A failing status update or a failing re-enqueue other than
  QueueException leaves `_handle_failure`, and the message is not acked. The run: `FailureIsNotAlwaysAcked`.
  For both claims `HandlingEnds` gives the exact condition for every handling of a message in every run: unless the worker
  dies, the message is acked if and only if no exception left `_handle` and the claim UPDATE did not raise, and it is nacked
  if and only if the claim UPDATE raised and no exception left `_handle`.
- Its README.md:29 and :41 call redelivery and SIGKILL safe because redelivered messages are dropped. They are dropped, but
  the job then stays STARTED for ever and its document can get no new job: `InterruptedForever`, `CrashInterruptsForGood`.
  The events that leave a STARTED job without an owner are exact: `OrphanedStep`, `StartedHasOwner`.
- An accepted job can stay QUEUED for ever: `AcceptedJobCanBeLost`. In every reachable state a QUEUED job can still be
  claimed if and only if it is not forgotten (`ClaimableUnlessForgotten`). Which events make a row forgotten is exact for
  each step and over every run: `ForgettingStep`, `UnclaimableByEvent`.
- docs/openapi_init.yaml:142-145 says `error_message` is present only if the last attempt failed; no code clears it. The run:
  `CompletedKeepsError`; the exact condition: `ErrorOutlivesFailure`.

## Model

| member | source | states |
|---|---|---|
| Keys.UuidTextInjective | api/services/document.py:28 | two ids with the same 36-character text (section 4 of RFC 9562) are the same id |
| Keys.UuidTextReadsBack | api/services/document.py:28 | the text of an id has hyphens at places 8, 13, 18 and 23 and lower-case hexadecimal digits that read back to the id |
| Keys.DecimalReadsBack | api/services/document.py:49 | the text of an account number has decimal digits without leading zeros that read back to the number |
| Keys.KeysReadBack | api/services/document.py:47-49 | account and document can be read off a raw key and off an artifact key, between the prefix and suffix of each |
| Keys.RawKeyInjective | api/services/document.py:47-49 | raw keys are equal as strings if and only if account and document are |
| Keys.ArtifactKeyInjective | worker/services/processing_service.py:65 | artifact keys are equal as strings if and only if account and document are |
| Keys.KeysDisjoint | worker/services/processing_service.py:65 | no artifact key is a raw key |
| Schema.UpdateOutcome | shared/infrastructure/repositories/job.py:63-96 | an update conflicts if and only if the row is missing or not in the expected status; it writes no other row, counts an attempt only when it starts one, stamps the new status only, and writes an error only when given one |
| Schema.UpdateKeepsIndex | shared/migrations/versions/a1b2c3d4e5f6_uuid_primary_keys.py:82-91 | an update of an active row never violates the partial unique index and keeps it |
| Schema.InsertAndIndex | shared/infrastructure/repositories/job.py:26-47 | an insert of a new id is refused if and only if the document has an active job, with that error, and otherwise keeps the index |
| Schema.InsertOutcome | shared/infrastructure/repositories/job.py:26-47 | an insert succeeds if and only if the id is free, the document exists and has no active job; it adds one row and changes none, and the new row is QUEUED with no attempts, created and queued at the time of the insert, with no other stamp and no error |
| Schema.StampKeepsShape | shared/infrastructure/repositories/job.py:73-80 | the values written along each edge of the lifecycle keep counters, timestamps and error message consistent |
| Schema.FindArtifact | shared/infrastructure/repositories/artifact.py:27-33 | the conflict target selects a row of that document and type, and none only if there is none |
| Schema.UpsertKeepsRows | shared/infrastructure/repositories/artifact.py:20-38 | an upsert makes no second row for a document and type and keeps every row's place, id and creation time; it adds one row, with the drawn id and its own time, if and only if there was none |
| Schema.UpsertRefinesMap | shared/infrastructure/repositories/artifact.py:27-38 | the table behaves as a map: the upsert sets its own entry and no other |
| Schema.ListArtifacts | shared/infrastructure/repositories/artifact.py:42-55 | the listing holds rows of the document only, all of them, and only if the document is the account's |
| Schema.ListingCounts | shared/infrastructure/repositories/artifact.py:46-55 | each listed row occurs as often as in the table |
| Schema.DocumentInsert | shared/infrastructure/repositories/document.py:15-32 | a document insert succeeds if and only if id and object key are unused, and adds exactly that row |
| Invariants.InvDo | worker/infrastructure/messaging/consumer.py:49-184 | every step of API, workers and environment, faults included, keeps the invariant |
| Invariants.InvRun | worker/infrastructure/messaging/consumer.py:49-184 | so does every run |
| Invariants.InvReachable | worker/infrastructure/messaging/consumer.py:49-184 | the invariant holds in every reachable state |
| Ownership.ClaimsAcquire | worker/infrastructure/messaging/consumer.py:100-105 | winning the compare-and-swap makes the winner the only owner, whatever it had read before |
| Ownership.ClaimsResolve | worker/infrastructure/messaging/consumer.py:131-176 | completing, requeueing or failing by the owner keeps ownership exclusive and leaves no STARTED row unowned and unaccounted |
| Wakeups.AwakeWorker | worker/infrastructure/messaging/consumer.py:83-156 | a worker's step takes the last witness of a QUEUED row only from its own job, and leaves another in its place |
| Lifecycle.RowStep | shared/infrastructure/repositories/job.py:73-91 | each step moves a row along one edge of the lifecycle or leaves it alone, and only the winner of a claim or the owner of one writes it |
| Lifecycle.RunsRefineLifecycle | worker/infrastructure/messaging/consumer.py:98-184 | stuttering refinement: every interleaved run, seen from one row, is a path QUEUED(a), STARTED(a+1), then COMPLETED, QUEUED(a+1) while a+1 is below the limit, or FAILED at the limit |
| Lifecycle.BoundedExecution | worker/infrastructure/messaging/consumer.py:144-176 | a job changes status at most twice per allowed attempt in any run |
| Lifecycle.TerminalForever | worker/infrastructure/messaging/consumer.py:121-184 | COMPLETED and FAILED rows keep every column in every continuation, faults included |
| Histories.RowTellsItsHistory | shared/infrastructure/repositories/job.py:26-84 | over any run a row's creation time is that of the event that inserted it, each other stamp that of the last event that moved it into the status, and its error the text of the last recorded failure |
| Histories.StampedStep | shared/infrastructure/repositories/job.py:63-84 | a step writes into a row the new row of a request, or the stamps of one claim, completion or failure at that moment, or nothing |
| Accounting.AttemptsAreClaims | shared/infrastructure/repositories/job.py:76-84 | attempts counts the claims committed over the whole run, numbered in increasing order, and who works on a job committed that very attempt |
| Accounting.OneExecutorPerAttempt | worker/infrastructure/messaging/consumer.py:98-134 | two workers found executing the same attempt of a job, at one or at two moments of a run, are the same worker |
| Safety.NoLostWakeup | worker/infrastructure/messaging/consumer.py:83-156 | a QUEUED job that is not stranded has a ready message, a worker holding one it will act on or give back, a worker about to re-enqueue it, or a request about to publish it; so some continuation claims it |
| Safety.ExclusiveOwnership | worker/infrastructure/messaging/consumer.py:90-134 | while a worker processes, the row is STARTED with that worker's attempt number and nobody else holds a claim of the job, even after a stale status read |
| Safety.StartedHasOwner | worker/infrastructure/messaging/consumer.py:98-134 | a STARTED job is orphaned if and only if no live worker holds its claim |
| Safety.SerialDocuments | shared/migrations/versions/a1b2c3d4e5f6_uuid_primary_keys.py:82-91 | no two workers process the same document at the same time |
| Safety.IndexReachable | shared/migrations/versions/a1b2c3d4e5f6_uuid_primary_keys.py:82-91 | in every reachable state a document has at most one QUEUED or STARTED job |
| Safety.UpdatesNeverViolateIndex | shared/infrastructure/repositories/job.py:82-96 | a claim succeeds if and only if the row is QUEUED, a completion always, and a failure update conflicts exactly when its job is already COMPLETED |
| Safety.NothingIsMissing | worker/services/processing_service.py:39-46 | every id in a message, a worker or a request names a committed row whose document exists for the account and was uploaded |
| Safety.FetchSucceeds | worker/services/processing_service.py:39-52 | so a claimed job always reaches its raw object |
| Safety.CompletedHasArtifact | worker/services/processing_service.py:65-81 | COMPLETED means the artifact row and its object exist, the row names a completed job of the document, and every stored version renders an uploaded version |
| Safety.OneUploadOneRendering | worker/services/processing_service.py:52-67 | a document uploaded once has only parse(raw), encoded, under its artifact key, whichever attempts wrote it |
| Safety.ListedBelongs | shared/infrastructure/repositories/artifact.py:46-55 | what an account can list names a COMPLETED job of its own document, and the object exists |
| Safety.EveryRowHasShape | shared/infrastructure/models.py:39-73 | in every reachable state each job row has consistent attempts, timestamps (with their order) and error message; a row never claimed is queued since its creation |
| Completion.AllOrNothing | worker/services/processing_service.py:70-81 | COMPLETED and the document's artifact row change together in one commit, and nothing else changes either |
| Completion.CompletionSucceeds | worker/services/processing_service.py:70-81 | a worker that stored its result can commit if and only if the document has an artifact row or the drawn row id is free |
| Completion.ArtifactIsLastCompletion | shared/infrastructure/repositories/artifact.py:27-33 | over any run the artifact of a document is the one its most recently completed job wrote |
| Completion.ArtifactRowsStay | shared/infrastructure/repositories/artifact.py:20-38 | over any run no artifact row is lost, changes id or creation time, or gets a twin |
| Histories.CompletionWritesRow | shared/infrastructure/repositories/artifact.py:16-38 | a completion adds the document's one artifact row, with the drawn id and the time of the commit, or makes the row there is name the job |
| Renderings.CompletionRendersItsFetch | worker/services/processing_service.py:52-81 | at the commit of a completion the current artifact object renders exactly the version that this attempt fetched, also under re-uploads |
| Renderings.AttemptFollowsItsFetch | worker/services/processing_service.py:52-67 | until then nobody replaces the object it stored |
| Renderings.ArtifactObjectWrites | worker/services/processing_service.py:65-67 | only the store step of an attempt on the document changes its artifact object, by one more rendering and with no change to any row |
| Forgetting.ForgettingStep | worker/infrastructure/messaging/consumer.py:83-168 | a step leaves a QUEUED row without message, publisher or worker that can act if and only if it is one of ten named events on the last of these |
| Forgetting.ForgottenByEvent | worker/infrastructure/messaging/consumer.py:83-168 | over any run a row is forgotten at the end if and only if such an event happened on the way |
| Forgetting.UnclaimableByEvent | api/services/job.py:58-67 | over the life of the system a QUEUED row can never be claimed again if and only if such an event happened to it |
| Losses.StrandedByLoss | api/services/job.py:58-67 | a stranded job met one of them earlier in the run |
| Losses.OrphanedStep | worker/infrastructure/messaging/consumer.py:98-176 | a step orphans a job if and only if its owner died, never learned that it won, or could not record the failure |
| Losses.OrphanedByInterruption | worker/infrastructure/messaging/consumer.py:98-176 | an orphaned job met one of those earlier in the run |
| Permanence.InterruptedForever | worker/infrastructure/messaging/consumer.py:90-109 | an orphaned row keeps every column in every continuation, nobody owns it, its messages are dropped at the status read and, after a stale read, at the claim, and new jobs of its document are refused |
| Permanence.ActiveJobBlocks | shared/infrastructure/repositories/job.py:42-44 | while a document has an active job an insert for it only ends the request |
| Permanence.ForgottenForever | worker/infrastructure/messaging/consumer.py:83-113 | a QUEUED row without message, request or worker that can act stays so in every continuation |
| Recovery.ClaimableUnlessForgotten | worker/infrastructure/messaging/consumer.py:83-113 | a QUEUED job can still be claimed if and only if it is not forgotten |
| Stopping.StoppedWorkerTakesNothing | worker/infrastructure/messaging/consumer.py:57-59 | a delivery to a stopping worker is not handled and returns to the queue |
| Stopping.StoppingFinishesOnly | worker/infrastructure/messaging/consumer.py:57-68 | over any run after `request_stop` a worker handles only the message it was handling then |
| Conservation.MessagesAreConserved | shared/infrastructure/messaging/rabbitmq_client.py:20-33 | published messages are as many as acked, ready and held ones, and deliveries as many as acks, returns and held ones, in any run |
| Conservation.DeliveryEndsOnce | worker/infrastructure/messaging/consumer.py:53-62 | each single delivery is held until the first event that acks or returns it, and that event ends it for good |
| Episodes.EpisodeStage | worker/infrastructure/messaging/consumer.py:70-184 | while a message is handled, the stage tells whether an exception left `_handle` and whether the claim UPDATE raised |
| Episodes.HandlingEnds | worker/infrastructure/messaging/consumer.py:83-134 | unless the worker dies, the message is acked, nacked, or left unsettled exactly according to which of its calls raised, in any interleaving |
| Measure.PaysDo | worker/infrastructure/messaging/consumer.py:70-184 | each step the pipeline takes by itself lowers the measure, and each client action or fault raises it by at most a constant |
| Termination.RunsAreBounded | worker/infrastructure/messaging/consumer.py:70-184 | in any run the pipeline's own steps number at most that constant for each client action and fault |
| Termination.InternalRunsAreShort | worker/infrastructure/messaging/consumer.py:70-184 | every schedule of own steps is at most as long as the work at hand |
| Termination.QuiescentIsSettled | worker/infrastructure/messaging/consumer.py:70-184 | when no own step remains and a worker is alive, every job neither stranded nor orphaned is COMPLETED or FAILED |
| Termination.QuiescentIsExact | worker/infrastructure/messaging/consumer.py:70-184 | a job has then ended if and only if it is neither orphaned nor forgotten |
| Termination.EveryScheduleDrains | worker/infrastructure/messaging/consumer.py:49-134 | every schedule of own steps keeps a healthy worker healthy, costs no job its wake-up or owner, and settles all other jobs once no step remains |
| Termination.Drains | worker/infrastructure/messaging/consumer.py:49-134 | from any state with a healthy worker some schedule of own steps settles every such job |
| Backpressure.EasesDo | api/services/job.py:54-67 | only an admission below the threshold and a surplus message raise the pressure on the queue |
| Backpressure.ReadyQueueIsBounded | api/services/job.py:54-67 | the ready queue never exceeds threshold - 1 + requests in flight + workers + surplus (duplicated messages and misread depths), in any run |
| Limits.AcceptedJobCanBeLost | api/services/job.py:58-67 | a concrete run after which an accepted job stays QUEUED in every continuation |
| Limits.SwallowingForgets | worker/infrastructure/messaging/consumer.py:153-167 | a swallowed QueueException forgets a job whose message a crash would have returned |
| Limits.CrashInterruptsForGood | worker/infrastructure/messaging/consumer.py:90-96 | a concrete run after which a job stays STARTED in every continuation although its message is redelivered |
| Limits.CommitErrorIsNotNacked | worker/infrastructure/messaging/consumer.py:98-113 | a concrete run in which the commit of the claim raises and the worker leaves without ack or nack |
| Limits.UpdateErrorIsNacked | worker/infrastructure/messaging/consumer.py:110-113 | a concrete run in which the claim UPDATE raises, the message is nacked and the worker goes on |
| Limits.FailureIsNotAlwaysAcked | worker/infrastructure/messaging/consumer.py:130-152 | a concrete run in which a failure cannot be recorded and the message is not acked |
| Limits.CompletedKeepsError | shared/infrastructure/repositories/job.py:73-80 | a concrete run that ends with a COMPLETED row carrying the error of an earlier attempt |
| Limits.ErrorOutlivesFailure | shared/infrastructure/repositories/job.py:73-80 | a reachable row carries an error although its last attempt did not fail if and only if it is STARTED or COMPLETED with at least two attempts |
| Infrastructure.Session.UpdateStatus | shared/infrastructure/repositories/job.py:63-96 | the update filled column by column is the compare-and-swap of the specification, returns the new row, and stages nothing when it raises |
| Infrastructure.Session.CreateJob | shared/infrastructure/repositories/job.py:26-47 | stages the new row of the specification and returns it, reports an active job exactly when the index refuses the insert, and raises otherwise only as the outlook says or for a taken id or missing document |
| Infrastructure.Session.GetForProcessing | shared/infrastructure/repositories/job.py:98-107 | the row as the session sees it, if there is one |
| Infrastructure.Session.UpsertArtifact | shared/infrastructure/repositories/artifact.py:16-40 | stages the upsert of the specification |
| Infrastructure.Session.CreateDocument | shared/infrastructure/repositories/document.py:15-32 | stages the new document row, or raises exactly when the call does or the id or key is taken |
| Infrastructure.Session.GetDocument | shared/infrastructure/repositories/document.py:34-46 | the document, only for its own account |
| Infrastructure.Session.Commit | worker/core/container.py:41-51 | the staged tables become the database's unless the commit raised without effect |
| Infrastructure.ObjectStore.PutObject | shared/infrastructure/storage/s3_client.py:94-103 | appends the new current version, also when the call raised after writing |
| Infrastructure.ObjectStore.GetObject | shared/infrastructure/storage/s3_client.py:83-92 | the current version, or an exception exactly when the call raises or there is none |
| Infrastructure.MessageQueue.Enqueue | shared/infrastructure/messaging/rabbitmq_client.py:20-33 | one more ready message, or an exception that may hide that |
| Infrastructure.MessageQueue.Depth | shared/infrastructure/messaging/rabbitmq_client.py:35-45 | the number of ready messages, 0 when the channel was closed under the call, or an exception |
| Cluster.OthersKeep | worker/infrastructure/messaging/consumer.py:70-134 | a step of anybody else leaves a consumer its task, stop signal and job's document, and a request its place |
| Cluster.System.Record | worker/infrastructure/messaging/consumer.py:70-184 | an effect on the services is accepted only as an enabled step of the system, with a fault only if a call raised, and extends the run |
| Cluster.System.Await | worker/infrastructure/messaging/consumer.py:49-184 | while code awaits, any enabled steps of others happen, none of its own does, and what the code relies on survives |
| Cluster.SoundIsReachable | worker/infrastructure/messaging/consumer.py:49-184 | at every await the code is in a reachable state of the step system |
| Processing.ProcessingService.ReadDocument | worker/services/processing_service.py:39-46 | the row and its document, neither of which can be missing: it fails exactly when one of the two calls raises |
| Processing.ProcessingService.FetchContent | worker/services/processing_service.py:52 | the current raw object, as the fetch step of the system, unless the call raises |
| Processing.ProcessingService.ParseContent | worker/services/processing_service.py:59 | the parse of exactly that content, unless the parser raises |
| Processing.ProcessingService.StoreResult | worker/services/processing_service.py:65-67 | the artifact object is written under the document's artifact key before any row; a raising put may have written it |
| Processing.ProcessingService.Stage | worker/services/processing_service.py:70-81 | the session holds exactly the completion transaction; by ownership its compare-and-swap cannot conflict, so it fails exactly when a call raises or the drawn row id is taken |
| Processing.ProcessingService.Process | worker/services/processing_service.py:38-81 | `process` makes exactly the calls of its script, in order, with the failure of the first that raises; otherwise it is ready to commit the completion of its own claim |
| Scripts.ProcessTable | worker/services/processing_service.py:38-81 | what `process` has done, how many calls it has made and what it raises, for each first call that raises and for none |
| Scripts.SmoothHandling | worker/infrastructure/messaging/consumer.py:81-134 | when no call raises a QUEUED job is claimed, fetched, parsed, stored, completed and acked, with thirteen calls |
| Scripts.SmoothDrop | worker/infrastructure/messaging/consumer.py:90-96 | when no call raises the message of a job that is not QUEUED is only acked |
| Scripts.ClaimCases | worker/infrastructure/messaging/consumer.py:98-113 | a raising claim UPDATE gives the message back, a conflict acks it, and a raising commit does neither and escapes; each exactly then |
| Scripts.HandleIsOver | worker/infrastructure/messaging/consumer.py:81-134 | `_handle` always ends, and without an exception the last thing it did was to ack or nack the message |
| Scripts.RecordedText | worker/infrastructure/messaging/consumer.py:130-133 | every failure that is recorded carries the text of the exception that the `try` raised |
| Consumer.RabbitMQConsumer.RequestStop | worker/infrastructure/messaging/consumer.py:67-68 | the stop event is set and no task changes |
| Consumer.RabbitMQConsumer.Start | worker/infrastructure/messaging/consumer.py:49-65 | for any number of turns the loop does exactly what its turns do, one after the other; it takes one message in each turn that saw one, and ends with the worker at rest, or gone without a message because it was told to stop or because an exception escaped |
| Consumer.RabbitMQConsumer.Turn | worker/infrastructure/messaging/consumer.py:57-62 | nothing happens exactly when no message was ready; otherwise one of the ready messages is delivered and either given back because of the stop event or handled by the script of `_handle`, after whose exception the worker leaves |
| Consumer.RabbitMQConsumer.Accept | worker/infrastructure/messaging/consumer.py:57-59 | once the stop event is set a delivered message is not handled and the worker leaves without it |
| Consumer.RabbitMQConsumer.Handle | worker/infrastructure/messaging/consumer.py:81-134 | `_handle` takes exactly the steps and makes exactly the calls of its script, for the rows it met; when that ends without failure the job is COMPLETED |
| Consumer.RabbitMQConsumer.Execute | worker/infrastructure/messaging/consumer.py:121-134 | the `try` and its `except` follow their scripts, and the text recorded is that of the exception raised by the call that failed |
| Consumer.RabbitMQConsumer.ReadStatus | worker/infrastructure/messaging/consumer.py:83-90 | the answer is whether the row is QUEUED at that moment; it fails exactly when the call raises |
| Consumer.RabbitMQConsumer.Inspect | worker/infrastructure/messaging/consumer.py:83-96 | the first session block follows its script: a claim is tried only if the row was QUEUED when read and both calls went well; otherwise the code only reads and settles, or an exception escapes |
| Consumer.RabbitMQConsumer.TakeClaim | worker/infrastructure/messaging/consumer.py:98-113 | the second session block follows its script: a raising UPDATE gives the message back, a conflict acks it, a raising commit escapes, and otherwise the worker owns the attempt the returned row names |
| Consumer.RabbitMQConsumer.GiveBack | worker/infrastructure/messaging/consumer.py:110-113 | a claim whose UPDATE raised nacks the message unless the nack raises too, and escapes exactly when that or the end of the session block raises |
| Consumer.RabbitMQConsumer.GiveMessageBack | worker/infrastructure/messaging/consumer.py:112 | after a nack the message is ready again, after a raising one nothing changed |
| Consumer.RabbitMQConsumer.Ack | worker/infrastructure/messaging/consumer.py:129-134 | after an ack the broker has forgotten the message; a raising one inside the `try` leads to the failure branch and any other escapes |
| Consumer.RabbitMQConsumer.TryProcess | worker/infrastructure/messaging/consumer.py:122-129 | the job is COMPLETED and its message acked, or the first of the nine calls that raised decides the failure and the claim is to be failed |
| Consumer.RabbitMQConsumer.RecordFailure | worker/infrastructure/messaging/consumer.py:144-176 | the row is QUEUED while attempts are left and else FAILED, with the given text; a conflict, exactly when the row is no longer STARTED, means it is COMPLETED and left alone; an exception escapes exactly when a call raised |
| Consumer.RabbitMQConsumer.HandleFailure | worker/infrastructure/messaging/consumer.py:136-184 | the failure is recorded with the given text and the job re-enqueued while attempts are left, as its script says; without attempts left it is FAILED with that text, or COMPLETED |
| Consumer.RabbitMQConsumer.Republish | worker/infrastructure/messaging/consumer.py:154-156 | the enqueue goes as the outlook says, and after a publication the job's message is ready again |
| Consumer.RabbitMQConsumer.FailAndAck | worker/infrastructure/messaging/consumer.py:130-134 | the failure is handled and then the message acked as the last thing done, or an exception escaped, exactly as the script says; without attempts left the row is FAILED with the given text, or COMPLETED |
| Api.JobService.Validate | api/services/job.py:46-52 | the document exists for the account and was uploaded, or the refusal says truly which is not so; another error exactly when one of the two calls raises |
| Api.JobService.CheckBackpressure | api/services/job.py:54-56 | admitted exactly when the call goes well and the depth read is below the threshold; a misread depth is 0; a refusal is true |
| Api.JobService.InsertRow | api/services/job.py:58-59 | the row is committed with the drawn id, the account, the document and the time of the insert, or refused for an active job that exists; another error exactly when a call raises or the drawn id is taken |
| Api.JobService.PublishJob | api/services/job.py:60-67 | the committed job's message is ready, or the enqueue raised |
| Api.JobService.Create | api/services/job.py:45-74 | `create` takes exactly the steps and makes exactly the calls of its script, for the states it met, and answers with the drawn id or the script's error; an accepted job's message is ready, and each refusal is true when given |
| Requests.CreateTable | api/services/job.py:45-74 | the first obstacle, in the order of the code, decides the answer; without one the request is validated, admitted, committed and then published |
| Requests.SmoothRequest | api/services/job.py:45-74 | when no call raises a request is accepted if and only if the document is there and uploaded, the depth read is below the threshold, the document has no active job and the drawn id is free; otherwise it is refused, unless the id was taken |
| Requests.RowWithoutMessage | api/services/job.py:58-67 | a row is committed before its message is published, and stays without one exactly when its commit raised although it was done, or its enqueue raised and was not done |
| Api.InsertMeets | api/services/job.py:58 | in a reachable state the insert of an admitted request is refused exactly for a taken id or an active job of the document |
| Api.DocumentService.Create | api/services/document.py:25-34 | the new document belongs to the account and has its own raw key; creation fails exactly when one of its two calls raises or the drawn id is taken, and then changes nothing unless the commit raised although it was done |
| Api.RegisterMeets | shared/infrastructure/repositories/document.py:15-32 | in a reachable state a new document can be inserted exactly when its id is unused: no other document has its key |

## Left out

- Poison messages, JSON encoding and the other payload fields: a message is its job id.
- `artifact_types` and artifact types other than MARKDOWN: the code writes only MARKDOWN.
- Presigned URLs, authentication, routes, response schemas, the accounts table and its foreign keys.
- boto3, aio_pika, SQLAlchemy and PyMuPDF: a map from keys to versions, a multiset of messages, atomic transactions and a function. The cached connection of the messaging client is part of that.
- The order of messages in the queue, and a message prefetched by a reconnected consumer that is still busy.
- Cancellation and `shield`: steps between awaits are the atomic actions.
- Two readings of `datetime.now()` inside one transaction differing, several clocks, and a put that lands after it timed out.
- A prompt exit when stop is requested on an idle queue: the flag is read only when a message arrives.
- A commit error when an API request's own session is closed after `create` has returned.
- `JobService.get`, `DocumentService.get`, `ArtifactService.list_for_document` and account lookup: one read each.
- All migrations except the partial unique index, and the creation time of a document row.
- Consumer.RabbitMQConsumer.Start: observes a given number of turns, because the loop of the code ends only by a stop or an exception.
