/** The pipeline as a step system: API requests, workers, the broker, PostgreSQL and S3 interleave, and
    every fault the code can meet is a step or a parameter of one.  Steps are the atomic actions
    between two awaits. */
module Protocol {
  import opened Wrappers
  import opened Keys
  import opened Schema

  newtype Byte = b: int | 0 <= b < 256

  type Bytes = seq<Byte>

  /** Settings and the two deterministic functions the pipeline is generic in. */
  datatype Config = Config(threshold: nat, maxAttempts: nat, parse: Bytes -> string, encode: string -> Bytes)

  /** Every version ever put under a key, oldest first; the last one is what a GET returns. */
  type Objects = map<string, seq<Bytes>>

  /** Job ids of ready messages, and the job id of the one message each consumer holds unacked. */
  datatype Broker = Broker(ready: multiset<Uuid>, unacked: map<nat, Uuid>)

  /** `started.attempts` and `started.max_attempts` of the claim a worker executes. */
  datatype Attempt = Attempt(number: nat, limit: nat)

  /** The account and document that `process` reads from the job row. */
  datatype Target = Target(account: nat, doc: Uuid)

  /** Where a worker is in `start`, `_handle`, `process` and `_handle_failure`. */
  datatype Stage =
    | Delivered                                              // in the iterator, loop body not begun
    | Received                                               // inside _handle, status not read
    | Checked                                                // status read as QUEUED
    | Dropping                                               // about to ack without doing anything
    | Nacking                                                // about to nack after a failed claim UPDATE
    | Raised                                                 // an exception left _handle
    | Claimed(run: Attempt)                                  // STARTED committed
    | Fetched(run: Attempt, target: Target, content: Bytes)
    | Parsed(run: Attempt, target: Target, markdown: string)
    | Stored(run: Attempt, target: Target)                   // artifact object written
    | Acking(run: Attempt)                                   // COMPLETED committed
    | Failing(run: Attempt)                                  // exception caught, _handle_failure entered
    | Requeued                                               // QUEUED committed, not yet re-enqueued
    | Settling(sent: bool)                                   // _handle_failure returned

  datatype Task = Idle | Busy(job: Uuid, stage: Stage)

  type Tasks = map<nat, Task>

  /** Where an API request is in `JobService.create`; a finished request is removed. */
  datatype Request =
    | Validated(account: nat, doc: Uuid)
    | Admitted(account: nat, doc: Uuid)                      // queue depth was below the threshold
    | Inserted(job: Uuid)                                    // committed, not yet enqueued

  /** `stranded` and `orphaned` are history: the jobs that lost a wake-up, perhaps not their last, and those that lost
      their owner. */
  datatype State = State(
    cfg: Config,
    clock: nat,
    objects: Objects,
    db: Tables,
    broker: Broker,
    workers: Tasks,
    stopping: set<nat>,
    requests: map<nat, Request>,
    stranded: set<Uuid>,
    orphaned: set<Uuid>)

  /** What the caller of a commit sees, and what the database did. */
  datatype Commit = Acknowledged | Unacknowledged(applied: bool)

  /** What the caller of `enqueue` sees: success, QueueException, or any other exception. */
  datatype Send = Sent | Refused(published: bool) | Broken(published: bool)

  datatype Step =
    // clients and operators
    | Register(account: nat, doc: Uuid)
    | Upload(doc: Uuid, content: Bytes)
    | Submit(r: nat, account: nat, doc: Uuid)
    | Start(w: nat)
    | Stop(w: nat)
    // JobService.create
    | CheckDepth(r: nat, misread: bool)
    | Insert(r: nat, job: Uuid, commit: Commit)
    | Publish(r: nat)
    | Abandon(r: nat)
    // the consumer
    | Deliver(w: nat, job: Uuid)
    | Begin(w: nat)
    | ReadStatus(w: nat)
    | SessionFails(w: nat)
    | Claim(w: nat, commit: Commit)
    | ClaimError(w: nat)
    | Settle(w: nat)
    | SettleRaises(w: nat)
    | Nack(w: nat)
    | Fetch(w: nat)
    | Parse(w: nat)
    | Store(w: nat)
    | Complete(w: nat, artifact: Uuid, commit: Commit)
    | Raise(w: nat)
    | Resolve(w: nat, error: string, commit: Commit)
    | Reenqueue(w: nat, send: Send)
    | Exit(w: nat)
    // the environment
    | Die(w: nat)
    | Redeliver(w: nat)

  datatype Event = Event(now: nat, step: Step)

  // ------------------------------------------------------------------- helpers

  predicate BusyAt(ws: Tasks, w: nat) { w in ws && ws[w].Busy? }

  function StageOf(ws: Tasks, w: nat): (g: Stage) requires BusyAt(ws, w) { ws[w].stage }

  function JobAt(ws: Tasks, w: nat): (j: Uuid) requires BusyAt(ws, w) { ws[w].job }

  /** The broker still attributes the message to the worker's channel. */
  predicate Holds(b: Broker, w: nat) { w in b.unacked }

  function Move(s: State, w: nat, stage: Stage): (t: State)
    requires BusyAt(s.workers, w)
  {
    s.(workers := s.workers[w := Busy(JobAt(s.workers, w), stage)])
  }

  function Rest(s: State, w: nat, broker: Broker): (t: State)
  {
    s.(broker := broker, workers := s.workers[w := Idle])
  }

  function WithJobs(s: State, jobs: Jobs): (t: State) { s.(db := s.db.(jobs := jobs)) }

  function Enqueued(b: Broker, job: Uuid): (c: Broker) { b.(ready := b.ready + multiset{job}) }

  /** Ack: the broker forgets the message if it still attributes it to this consumer. */
  function Acked(b: Broker, w: nat): (c: Broker) { b.(unacked := b.unacked - {w}) }

  /** Nack with requeue, channel closed, or connection lost: the message is ready again. */
  function Returned(b: Broker, w: nat): (c: Broker)
  {
    if w in b.unacked then Broker(b.ready + multiset{b.unacked[w]}, b.unacked - {w}) else b
  }

  function Close(s: State, r: nat): (t: State) { s.(requests := s.requests - {r}) }

  function Gone(s: State, w: nat): (t: State)
  {
    s.(broker := Returned(s.broker, w), workers := s.workers - {w}, stopping := s.stopping - {w})
  }

  /** The worker executes a claim that is not yet resolved. */
  predicate Unresolved(stage: Stage)
  {
    stage.Claimed? || stage.Fetched? || stage.Parsed? || stage.Stored? || stage.Failing?
  }

  predicate IsStarted(jobs: Jobs, job: Uuid) { job in jobs && jobs[job].status.Started? }

  function Orphan(s: State, job: Uuid): (t: State)
  {
    if IsStarted(s.db.jobs, job) then s.(orphaned := s.orphaned + {job}) else s
  }

  function Strand(s: State, job: Uuid): (t: State) { s.(stranded := s.stranded + {job}) }

  // -------------------------------------------------------------- clients, API

  function DoRegister(s: State, account: nat, doc: Uuid): (t: State)
  {
    match InsertDocument(s.db.docs, doc, Document(account, RawKey(account, doc)))
    case Ok(docs) => s.(db := s.db.(docs := docs))
    case Err(_) => s
  }

  function Put(objects: Objects, key: string, content: Bytes): (o: Objects)
  {
    objects[key := (if key in objects then objects[key] else []) + [content]]
  }

  function DoUpload(s: State, doc: Uuid, content: Bytes): (t: State)
    requires doc in s.db.docs
  {
    s.(objects := Put(s.objects, s.db.docs[doc].key, content))
  }

  /** Document lookup and `object_exists`; a refused request leaves no trace. */
  function DoSubmit(s: State, r: nat, account: nat, doc: Uuid): (t: State)
  {
    match GetDocument(s.db.docs, doc, account)
    case None => s
    case Some(d) => if d.key in s.objects then s.(requests := s.requests[r := Validated(account, doc)]) else s
  }

  /** `queue_depth` answers 0 when its channel is closed under it: a misread depth. */
  function DoCheckDepth(s: State, r: nat, misread: bool): (t: State)
    requires r in s.requests && s.requests[r].Validated?
  {
    if (if misread then 0 else |s.broker.ready|) >= s.cfg.threshold then Close(s, r)
    else s.(requests := s.requests[r := Admitted(s.requests[r].account, s.requests[r].doc)])
  }

  function DoInsert(s: State, r: nat, job: Uuid, commit: Commit): (t: State)
    requires r in s.requests && s.requests[r].Admitted?
  {
    var row := NewJob(s.requests[r].account, s.requests[r].doc, s.cfg.maxAttempts, s.clock);
    match InsertJob(s.db, job, row)
    case Err(_) => Close(s, r)
    case Ok(jobs) =>
      match commit
      case Acknowledged => WithJobs(s, jobs).(requests := s.requests[r := Inserted(job)])
      case Unacknowledged(applied) => if applied then Strand(WithJobs(Close(s, r), jobs), job) else Close(s, r)
  }

  function DoPublish(s: State, r: nat): (t: State)
    requires r in s.requests && s.requests[r].Inserted?
  {
    Close(s, r).(broker := Enqueued(s.broker, s.requests[r].job))
  }

  /** An exception, a lost client or a dead API process ends the request where it is. */
  function DoAbandon(s: State, r: nat): (t: State)
    requires r in s.requests
  {
    if s.requests[r].Inserted? then Strand(Close(s, r), s.requests[r].job) else Close(s, r)
  }

  // ------------------------------------------------------------------ consumer

  function DoDeliver(s: State, w: nat, job: Uuid): (t: State)
    requires w in s.workers
  {
    s.(broker := Broker(s.broker.ready - multiset{job}, s.broker.unacked[w := job]),
       workers := s.workers[w := Busy(job, Delivered)])
  }

  /** The stop flag is read before each message: a stopping worker leaves the loop and its channel closes. */
  function DoBegin(s: State, w: nat): (t: State)
    requires BusyAt(s.workers, w)
  {
    if w in s.stopping then Gone(s, w) else Move(s, w, Received)
  }

  function DoReadStatus(s: State, w: nat): (t: State)
    requires BusyAt(s.workers, w)
  {
    var j := JobAt(s.workers, w);
    if j in s.db.jobs && s.db.jobs[j].status.Queued? then Move(s, w, Checked) else Move(s, w, Dropping)
  }

  function DoClaim(s: State, w: nat, commit: Commit): (t: State)
    requires BusyAt(s.workers, w)
  {
    var j := JobAt(s.workers, w);
    match UpdateStatus(s.db.jobs, j, Status.Started, Status.Queued, None, s.clock)
    case Err(e) => if e.StateConflict? then Move(s, w, Dropping) else Move(s, w, Nacking)
    case Ok(jobs) =>
      match commit
      case Acknowledged =>
        Move(WithJobs(s, jobs), w, Claimed(Attempt(jobs[j].attempts, jobs[j].maxAttempts)))
      case Unacknowledged(applied) =>
        if applied then Orphan(Move(WithJobs(s, jobs), w, Raised), j) else Move(s, w, Raised)
  }

  function DoSettle(s: State, w: nat): (t: State)
    requires BusyAt(s.workers, w)
  {
    Rest(s, w, Acked(s.broker, w))
  }

  /** A failed ack escapes `_handle`, except the one inside the `try` after `process`. */
  function DoSettleRaises(s: State, w: nat): (t: State)
    requires BusyAt(s.workers, w)
  {
    if StageOf(s.workers, w).Acking? then Move(s, w, Failing(StageOf(s.workers, w).run)) else Move(s, w, Raised)
  }

  function DoNack(s: State, w: nat): (t: State)
    requires BusyAt(s.workers, w)
  {
    Rest(s, w, Returned(s.broker, w))
  }

  function DoFetch(s: State, w: nat): (t: State)
    requires BusyAt(s.workers, w) && StageOf(s.workers, w).Claimed?
  {
    var j, run := JobAt(s.workers, w), StageOf(s.workers, w).run;
    if j !in s.db.jobs then Move(s, w, Failing(run))
    else
      var row := s.db.jobs[j];
      match GetDocument(s.db.docs, row.doc, row.account)
      case None => Move(s, w, Failing(run))
      case Some(d) =>
        if d.key !in s.objects || s.objects[d.key] == [] then Move(s, w, Failing(run))
        else Move(s, w, Fetched(run, Target(row.account, row.doc), s.objects[d.key][|s.objects[d.key]| - 1]))
  }

  function DoParse(s: State, w: nat): (t: State)
    requires BusyAt(s.workers, w) && StageOf(s.workers, w).Fetched?
  {
    var g := StageOf(s.workers, w);
    Move(s, w, Parsed(g.run, g.target, s.cfg.parse(g.content)))
  }

  function DoStore(s: State, w: nat): (t: State)
    requires BusyAt(s.workers, w) && StageOf(s.workers, w).Parsed?
  {
    var g := StageOf(s.workers, w);
    var key := ArtifactKey(g.target.account, g.target.doc);
    Move(s, w, Stored(g.run, g.target)).(objects := Put(s.objects, key, s.cfg.encode(g.markdown)))
  }

  /** The artifact upsert and the COMPLETED update, staged in one transaction. */
  function CompletedTables(t: Tables, job: Uuid, target: Target, artifact: Uuid, now: nat): (r: Result<Tables, SqlError>)
  {
    var key := ArtifactKey(target.account, target.doc);
    match UpsertArtifact(t, Artifact(artifact, job, target.doc, Markdown, key, now))
    case Err(e) => Err(e)
    case Ok(rows) =>
      match UpdateStatus(t.jobs, job, Status.Completed, Status.Started, None, now)
      case Err(e) => Err(e)
      case Ok(jobs) => Ok(Tables(t.docs, jobs, rows))
  }

  function DoComplete(s: State, w: nat, artifact: Uuid, commit: Commit): (t: State)
    requires BusyAt(s.workers, w) && StageOf(s.workers, w).Stored?
  {
    var run := StageOf(s.workers, w).run;
    match CompletedTables(s.db, JobAt(s.workers, w), StageOf(s.workers, w).target, artifact, s.clock)
    case Err(_) => Move(s, w, Failing(run))
    case Ok(db) =>
      match commit
      case Acknowledged => Move(s.(db := db), w, Acking(run))
      case Unacknowledged(applied) => Move(if applied then s.(db := db) else s, w, Failing(run))
  }

  function DoRaise(s: State, w: nat): (t: State)
    requires BusyAt(s.workers, w) && Unresolved(StageOf(s.workers, w))
  {
    Move(s, w, Failing(StageOf(s.workers, w).run))
  }

  function FailureStatus(run: Attempt): (status: Status)
  {
    if run.number < run.limit then Status.Queued else Status.Failed
  }

  /** The status update of `_handle_failure`, with its commit. */
  function DoResolve(s: State, w: nat, error: string, commit: Commit): (t: State)
    requires BusyAt(s.workers, w) && StageOf(s.workers, w).Failing?
  {
    var j, status := JobAt(s.workers, w), FailureStatus(StageOf(s.workers, w).run);
    if commit == Unacknowledged(false) then Orphan(Move(s, w, Raised), j)
    else
      match UpdateStatus(s.db.jobs, j, status, Status.Started, Some(error), s.clock)
      case Err(e) => if e.StateConflict? then Move(s, w, Settling(false)) else Orphan(Move(s, w, Raised), j)
      case Ok(jobs) =>
        var t := WithJobs(s, jobs);
        if commit.Acknowledged? then Move(t, w, if status.Queued? then Requeued else Settling(false))
        else if status.Queued? && !Holds(s.broker, w) then Strand(Move(t, w, Raised), j)
        else Move(t, w, Raised)
  }

  function DoReenqueue(s: State, w: nat, send: Send): (t: State)
    requires BusyAt(s.workers, w)
  {
    var j := JobAt(s.workers, w);
    match send
    case Sent => Move(s, w, Settling(true)).(broker := Enqueued(s.broker, j))
    case Refused(published) =>
      if published then Move(s, w, Settling(true)).(broker := Enqueued(s.broker, j))
      else Strand(Move(s, w, Settling(false)), j)
    case Broken(published) =>
      if published then Move(s, w, Raised).(broker := Enqueued(s.broker, j))
      else if Holds(s.broker, w) then Move(s, w, Raised)
      else Strand(Move(s, w, Raised), j)
  }

  function DoDie(s: State, w: nat): (t: State)
    requires w in s.workers
  {
    if s.workers[w].Idle? then Gone(s, w)
    else if Unresolved(StageOf(s.workers, w)) then Orphan(Gone(s, w), JobAt(s.workers, w))
    else if StageOf(s.workers, w).Requeued? && !Holds(s.broker, w) then Strand(Gone(s, w), JobAt(s.workers, w))
    else Gone(s, w)
  }

  // --------------------------------------------------------------- step system

  predicate Enabled(s: State, step: Step)
  {
    match step
    case Register(_, doc) => doc !in s.db.docs
    case Upload(doc, _) => doc in s.db.docs
    case Submit(r, _, _) => r !in s.requests
    case Start(w) => w !in s.workers
    case Stop(w) => w in s.workers
    case CheckDepth(r, _) => r in s.requests && s.requests[r].Validated?
    case Insert(r, _, _) => r in s.requests && s.requests[r].Admitted?
    case Publish(r) => r in s.requests && s.requests[r].Inserted?
    case Abandon(r) => r in s.requests
    case Deliver(w, job) => w in s.workers && s.workers[w].Idle? && !Holds(s.broker, w) && job in s.broker.ready
    case Begin(w) => BusyAt(s.workers, w) && StageOf(s.workers, w).Delivered?
    case ReadStatus(w) => BusyAt(s.workers, w) && StageOf(s.workers, w).Received?
    case SessionFails(w) => BusyAt(s.workers, w) && (StageOf(s.workers, w).Received? || StageOf(s.workers, w).Checked?)
    case Claim(w, _) => BusyAt(s.workers, w) && StageOf(s.workers, w).Checked?
    case ClaimError(w) => BusyAt(s.workers, w) && StageOf(s.workers, w).Checked?
    case Settle(w) => BusyAt(s.workers, w) && (StageOf(s.workers, w).Dropping? || StageOf(s.workers, w).Acking? || StageOf(s.workers, w).Settling?)
    case SettleRaises(w) =>
      BusyAt(s.workers, w) && (StageOf(s.workers, w).Dropping? || StageOf(s.workers, w).Nacking? || StageOf(s.workers, w).Acking? || StageOf(s.workers, w).Settling?)
    case Nack(w) => BusyAt(s.workers, w) && StageOf(s.workers, w).Nacking?
    case Fetch(w) => BusyAt(s.workers, w) && StageOf(s.workers, w).Claimed?
    case Parse(w) => BusyAt(s.workers, w) && StageOf(s.workers, w).Fetched?
    case Store(w) => BusyAt(s.workers, w) && StageOf(s.workers, w).Parsed?
    case Complete(w, _, _) => BusyAt(s.workers, w) && StageOf(s.workers, w).Stored?
    case Raise(w) => BusyAt(s.workers, w) && Unresolved(StageOf(s.workers, w)) && !StageOf(s.workers, w).Failing?
    case Resolve(w, _, _) => BusyAt(s.workers, w) && StageOf(s.workers, w).Failing?
    case Reenqueue(w, _) => BusyAt(s.workers, w) && StageOf(s.workers, w).Requeued?
    case Exit(w) => BusyAt(s.workers, w) && StageOf(s.workers, w).Raised?
    case Die(w) => w in s.workers
    case Redeliver(w) => Holds(s.broker, w)
  }

  function Do(s: State, step: Step): (t: State)
    requires Enabled(s, step)
  {
    match step
    case Register(account, doc) => DoRegister(s, account, doc)
    case Upload(doc, content) => DoUpload(s, doc, content)
    case Submit(r, account, doc) => DoSubmit(s, r, account, doc)
    case Start(w) => s.(workers := s.workers[w := Idle], stopping := s.stopping - {w})
    case Stop(w) => s.(stopping := s.stopping + {w})
    case CheckDepth(r, misread) => DoCheckDepth(s, r, misread)
    case Insert(r, job, commit) => DoInsert(s, r, job, commit)
    case Publish(r) => DoPublish(s, r)
    case Abandon(r) => DoAbandon(s, r)
    case Deliver(w, job) => DoDeliver(s, w, job)
    case Begin(w) => DoBegin(s, w)
    case ReadStatus(w) => DoReadStatus(s, w)
    case SessionFails(w) => Move(s, w, Raised)
    case Claim(w, commit) => DoClaim(s, w, commit)
    case ClaimError(w) => Move(s, w, Nacking)
    case Settle(w) => DoSettle(s, w)
    case SettleRaises(w) => DoSettleRaises(s, w)
    case Nack(w) => DoNack(s, w)
    case Fetch(w) => DoFetch(s, w)
    case Parse(w) => DoParse(s, w)
    case Store(w) => DoStore(s, w)
    case Complete(w, artifact, commit) => DoComplete(s, w, artifact, commit)
    case Raise(w) => DoRaise(s, w)
    case Resolve(w, error, commit) => DoResolve(s, w, error, commit)
    case Reenqueue(w, send) => DoReenqueue(s, w, send)
    case Exit(w) => Gone(s, w)
    case Die(w) => DoDie(s, w)
    case Redeliver(w) => s.(broker := Returned(s.broker, w))
  }

  /** One clock, never going back; a statement is stamped with the time it executes at. */
  predicate CanHappen(s: State, e: Event) { s.clock <= e.now && Enabled(s, e.step) }

  function Apply(s: State, e: Event): (t: State)
    requires CanHappen(s, e)
  {
    Do(s.(clock := e.now), e.step)
  }

  function Initial(cfg: Config): (s: State)
  {
    State(cfg, 0, map[], Tables(map[], map[], []), Broker(multiset{}, map[]), map[], {}, map[], {}, {})
  }

  // ---------------------------------------------------------------------- runs

  /** A run from `s`: every event can happen in the state its predecessors leave. */
  ghost predicate Run(s: State, es: seq<Event>)
    decreases |es|, 0
  {
    es == [] || (Run(s, es[..|es| - 1]) && CanHappen(After(s, es[..|es| - 1]), es[|es| - 1]))
  }

  ghost function After(s: State, es: seq<Event>): (t: State)
    requires Run(s, es)
    decreases |es|, 1
  {
    if es == [] then s else Apply(After(s, es[..|es| - 1]), es[|es| - 1])
  }

  ghost predicate Valid(cfg: Config) { cfg.maxAttempts >= 1 }

  ghost predicate Reachable(s: State)
  {
    Valid(s.cfg) && exists es :: Run(Initial(s.cfg), es) && After(Initial(s.cfg), es) == s
  }
}
