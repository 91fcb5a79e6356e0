/** How much work a state still holds: attempts left, messages, and where each worker and request stands. */
module Measure {
  import opened Wrappers
  import opened Keys
  import opened Schema
  import opened Protocol
  import opened Ownership
  import opened Wakeups
  import opened Contents
  import opened Frames
  import opened Invariants
  import opened Lifecycle
  import opened Totals

  const ATTEMPT_WEIGHT: nat := 11
  const MESSAGE_WEIGHT: nat := 5

  function StageWeight(stage: Stage): (n: nat)
  {
    match stage
    case Delivered => 4
    case Received => 3
    case Checked => 2
    case Dropping => 1
    case Nacking => 6
    case Raised => 4
    case Claimed(_) => 12
    case Fetched(_, _, _) => 11
    case Parsed(_, _, _) => 10
    case Stored(_, _) => 9
    case Failing(_) => 8
    case Requeued => 7
    case Acking(_) => 1
    case Settling(_) => 1
  }

  /** A live worker weighs something even at rest, so that leaving with a message pays for its return. */
  function TaskWeight(task: Option<Task>): (n: nat)
  {
    match task
    case None => 0
    case Some(Idle) => 2
    case Some(Busy(_, stage)) => 2 + StageWeight(stage)
  }

  function AttemptsLeft(row: Job): (n: nat)
  {
    if row.attempts <= row.maxAttempts then row.maxAttempts - row.attempts else 0
  }

  function RowWeight(row: Option<Job>): (n: nat)
  {
    if row.Some? then ATTEMPT_WEIGHT * AttemptsLeft(row.value) else 0
  }

  function RequestWeight(cfg: Config, request: Option<Request>): (n: nat)
  {
    match request
    case None => 0
    case Some(Validated(_, _)) => ATTEMPT_WEIGHT * cfg.maxAttempts + 8
    case Some(Admitted(_, _)) => ATTEMPT_WEIGHT * cfg.maxAttempts + 7
    case Some(Inserted(_)) => 6
  }

  function RowWeights(jobs: Jobs): (m: map<Uuid, nat>) { map j | j in jobs :: RowWeight(Some(jobs[j])) }

  function TaskWeights(ws: Tasks): (m: map<nat, nat>) { map w | w in ws :: TaskWeight(Some(ws[w])) }

  function RequestWeights(cfg: Config, rs: Requests): (m: map<nat, nat>) { map r | r in rs :: RequestWeight(cfg, Some(rs[r])) }

  ghost function Work(s: State): (n: nat)
  {
    Total(RowWeights(s.db.jobs)) + Total(TaskWeights(s.workers)) + Total(RequestWeights(s.cfg, s.requests))
    + MESSAGE_WEIGHT * |s.broker.ready|
  }

  lemma RowTotal(jobs: Jobs, job: Uuid, row: Job)
    ensures Total(RowWeights(jobs[job := row])) == Total(RowWeights(jobs)) - RowWeight(RowAt(jobs, job)) + RowWeight(Some(row))
  {
    assert RowWeights(jobs[job := row]) == RowWeights(jobs)[job := RowWeight(Some(row))];
    TotalPut(RowWeights(jobs), job, RowWeight(Some(row)));
  }

  lemma TaskTotal(ws: Tasks, w: nat, task: Option<Task>)
    ensures Total(TaskWeights(With(ws, w, task))) == Total(TaskWeights(ws)) - TaskWeight(TaskOf(ws, w)) + TaskWeight(task)
  {
    if task.Some? {
      assert TaskWeights(ws[w := task.value]) == TaskWeights(ws)[w := TaskWeight(task)];
      TotalPut(TaskWeights(ws), w, TaskWeight(task));
    } else {
      assert TaskWeights(ws - {w}) == TaskWeights(ws) - {w};
      TotalDrop(TaskWeights(ws), w);
    }
  }

  lemma RequestTotal(cfg: Config, rs: Requests, r: nat, request: Option<Request>)
    ensures Total(RequestWeights(cfg, WithRequest(rs, r, request)))
         == Total(RequestWeights(cfg, rs)) - RequestWeight(cfg, RequestIn(rs, r)) + RequestWeight(cfg, request)
  {
    if request.Some? {
      assert RequestWeights(cfg, rs[r := request.value]) == RequestWeights(cfg, rs)[r := RequestWeight(cfg, request)];
      TotalPut(RequestWeights(cfg, rs), r, RequestWeight(cfg, request));
    } else {
      assert RequestWeights(cfg, rs - {r}) == RequestWeights(cfg, rs) - {r};
      TotalDrop(RequestWeights(cfg, rs), r);
    }
  }

  /** The change of work when one worker acts without writing a row. */
  lemma WorkMove(s: State, t: State, w: nat)
    requires t.workers == With(s.workers, w, TaskOf(t.workers, w))
    requires t.db.jobs == s.db.jobs && t.requests == s.requests && t.cfg == s.cfg
    ensures Work(t) - Work(s) == TaskWeight(TaskOf(t.workers, w)) - TaskWeight(TaskOf(s.workers, w))
                                 + MESSAGE_WEIGHT * (|t.broker.ready| - |s.broker.ready|)
  {
    TaskTotal(s.workers, w, TaskOf(t.workers, w));
  }

  /** The change of work when one worker acts and writes one row. */
  lemma WorkWrite(s: State, t: State, w: nat, job: Uuid, row: Job)
    requires t.workers == With(s.workers, w, TaskOf(t.workers, w))
    requires t.db.jobs == s.db.jobs[job := row] && t.requests == s.requests && t.cfg == s.cfg && t.broker == s.broker
    ensures Work(t) - Work(s) == TaskWeight(TaskOf(t.workers, w)) - TaskWeight(TaskOf(s.workers, w))
                                 + RowWeight(Some(row)) - RowWeight(RowAt(s.db.jobs, job))
  {
    TaskTotal(s.workers, w, TaskOf(t.workers, w));
    RowTotal(s.db.jobs, job, row);
  }

  /** The change of work when one request acts. */
  lemma WorkRequest(s: State, t: State, r: nat)
    requires t.requests == WithRequest(s.requests, r, RequestIn(t.requests, r))
    requires t.db.jobs == s.db.jobs && t.workers == s.workers && t.cfg == s.cfg
    ensures Work(t) - Work(s) == RequestWeight(s.cfg, RequestIn(t.requests, r)) - RequestWeight(s.cfg, RequestIn(s.requests, r))
                                 + MESSAGE_WEIGHT * (|t.broker.ready| - |s.broker.ready|)
  {
    RequestTotal(s.cfg, s.requests, r, RequestIn(t.requests, r));
  }

  // -------------------------------------------------------------- the two kinds of step

  /** Steps the pipeline takes by itself, with nothing going wrong around them. */
  predicate Internal(step: Step)
  {
    match step
    case CheckDepth(_, misread) => !misread
    case Insert(_, _, commit) => commit.Acknowledged?
    case Publish(_) => true
    case Deliver(_, _) => true
    case Begin(_) => true
    case ReadStatus(_) => true
    case Claim(_, commit) => commit.Acknowledged?
    case Settle(_) => true
    case Nack(_) => true
    case Fetch(_) => true
    case Parse(_) => true
    case Store(_) => true
    case Complete(_, _, commit) => commit.Acknowledged?
    case Raise(_) => true
    case Resolve(_, _, commit) => commit.Acknowledged?
    case Reenqueue(_, send) => send.Sent?
    case Exit(_) => true
    case _ => false
  }

  /** The most work one client action or fault can add. */
  function Gain(cfg: Config): (n: nat) { ATTEMPT_WEIGHT * cfg.maxAttempts + 8 }

  /** An internal step works something off; any other adds at most Gain. */
  ghost predicate Pays(s: State, t: State, step: Step)
  {
    if Internal(step) then Work(t) + 1 <= Work(s) else Work(t) <= Work(s) + Gain(s.cfg)
  }

  lemma ReturnedReady(b: Broker, w: nat)
    ensures |Returned(b, w).ready| == |b.ready| + if w in b.unacked then 1 else 0
  {
  }

  lemma PaysPlain(s: State, step: Step)
    requires Enabled(s, step)
    requires step.ReadStatus? || step.Raise?
    ensures Pays(s, Do(s, step), step)
  {
    hide Work;
    WorkMove(s, Do(s, step), step.w);
  }

  lemma PaysDone(s: State, step: Step)
    requires Enabled(s, step)
    requires step.Parse? || step.Settle?
    ensures Pays(s, Do(s, step), step)
  {
    hide Work;
    WorkMove(s, Do(s, step), step.w);
  }

  lemma PaysTrouble(s: State, step: Step)
    requires Enabled(s, step)
    requires step.SessionFails? || step.ClaimError? || step.SettleRaises?
    ensures Pays(s, Do(s, step), step)
  {
    hide Work;
    WorkMove(s, Do(s, step), step.w);
  }

  lemma PaysLeave(s: State, step: Step)
    requires Enabled(s, step)
    requires step.Begin? || step.Nack? || step.Exit?
    ensures Pays(s, Do(s, step), step)
  {
    hide Work, Returned;
    ReturnedReady(s.broker, step.w);
    WorkMove(s, Do(s, step), step.w);
  }

  lemma PaysDie(s: State, w: nat)
    requires w in s.workers
    ensures Work(DoDie(s, w)) <= Work(s) + Gain(s.cfg)
  {
    hide Work, Returned;
    ReturnedReady(s.broker, w);
    WorkMove(s, DoDie(s, w), w);
  }

  lemma PaysRedeliver(s: State, w: nat)
    ensures Work(s.(broker := Returned(s.broker, w))) <= Work(s) + Gain(s.cfg)
  {
    ReturnedReady(s.broker, w);
  }

  lemma PaysDeliver(s: State, w: nat, job: Uuid)
    requires w in s.workers && s.workers[w].Idle? && job in s.broker.ready
    ensures Work(DoDeliver(s, w, job)) + 1 <= Work(s)
  {
    hide Work;
    WorkMove(s, DoDeliver(s, w, job), w);
  }

  lemma PaysFetch(s: State, w: nat)
    requires BusyAt(s.workers, w) && s.workers[w].stage.Claimed?
    ensures Work(DoFetch(s, w)) + 1 <= Work(s)
  {
    hide Work;
    WorkMove(s, DoFetch(s, w), w);
  }

  lemma PaysStore(s: State, w: nat)
    requires BusyAt(s.workers, w) && s.workers[w].stage.Parsed?
    ensures Work(DoStore(s, w)) + 1 <= Work(s)
  {
    hide Work, Put;
    WorkMove(s, DoStore(s, w), w);
  }

  lemma ReenqueueAfter(s: State, w: nat, send: Send)
    requires BusyAt(s.workers, w)
    ensures var t := DoReenqueue(s, w, send);
            && t.workers == With(s.workers, w, TaskOf(t.workers, w))
            && t.db == s.db && t.requests == s.requests && t.cfg == s.cfg
            && |t.broker.ready| == |s.broker.ready| + (if send.Sent? || send.published then 1 else 0)
            && TaskOf(t.workers, w) == Some(Busy(s.workers[w].job, if send.Broken? then Raised
                                                                     else Settling(send.Sent? || send.published)))
  {
  }

  lemma PaysReenqueue(s: State, w: nat, send: Send)
    requires BusyAt(s.workers, w) && s.workers[w].stage.Requeued?
    ensures Pays(s, DoReenqueue(s, w, send), Reenqueue(w, send))
  {
    hide Work, DoReenqueue;
    ReenqueueAfter(s, w, send);
    WorkMove(s, DoReenqueue(s, w, send), w);
  }

  lemma PaysClaim(s: State, w: nat, commit: Commit)
    requires Inv(s) && BusyAt(s.workers, w) && s.workers[w].stage.Checked?
    ensures Pays(s, DoClaim(s, w, commit), Claim(w, commit))
  {
    hide Shapes, Claims, Linked, Known, Awake, Documents, Pure, Artifacts, Work;
    JobKnown(s, w);
    var jobs, job, t := s.db.jobs, s.workers[w].job, DoClaim(s, w, commit);
    if IsQueued(jobs, job) && commit != Unacknowledged(false) {
      assert RowShape(jobs[job], s.clock) by { ShapeOf(s, job); }
      UpdateKeepsIndex(jobs, job, Status.Started, Status.Queued, None, s.clock);
      WorkWrite(s, t, w, job, Stamp(jobs[job], Status.Started, None, s.clock));
    } else {
      if IsQueued(jobs, job) { UpdateKeepsIndex(jobs, job, Status.Started, Status.Queued, None, s.clock); }
      WorkMove(s, t, w);
    }
  }

  lemma PaysComplete(s: State, w: nat, a: Uuid, commit: Commit)
    requires Inv(s) && BusyAt(s.workers, w) && s.workers[w].stage.Stored?
    ensures Pays(s, DoComplete(s, w, a, commit), Complete(w, a, commit))
  {
    hide Shapes, Claims, Linked, Known, Awake, Documents, Pure, Artifacts, IndexHolds, Work, UpsertArtifact;
    JobKnown(s, w);
    var jobs, job, t := s.db.jobs, s.workers[w].job, DoComplete(s, w, a, commit);
    var r := CompletedTables(s.db, job, s.workers[w].stage.target, a, s.clock);
    if r.Ok? && commit != Unacknowledged(false) {
      WorkWrite(s, t, w, job, Stamp(jobs[job], Status.Completed, None, s.clock));
    } else {
      WorkMove(s, t, w);
    }
  }

  lemma FailedWeight(row: Job, run: Attempt, error: string, now: nat)
    ensures RowWeight(Some(Stamp(row, FailureStatus(run), Some(error), now))) == RowWeight(Some(row))
  {
  }

  /** The shape of the state after a failure update that finds its row STARTED and commits. */
  lemma ResolveOutcome(s: State, w: nat, error: string, commit: Commit)
    requires BusyAt(s.workers, w) && s.workers[w].stage.Failing? && commit != Unacknowledged(false)
    requires IsStarted(s.db.jobs, s.workers[w].job) && IndexHolds(s.db.jobs)
    ensures var t, job := DoResolve(s, w, error, commit), s.workers[w].job;
            && t.db.jobs == s.db.jobs[job := Stamp(s.db.jobs[job], FailureStatus(s.workers[w].stage.run), Some(error), s.clock)]
            && t.cfg == s.cfg
            && TaskWeight(TaskOf(t.workers, w)) <= if commit.Acknowledged? then 9 else 10
  {
    UpdateKeepsIndex(s.db.jobs, s.workers[w].job, FailureStatus(s.workers[w].stage.run), Status.Started, Some(error), s.clock);
    hide IndexHolds, UpdateStatus, Stamp;
  }

  lemma PaysResolve(s: State, w: nat, error: string, commit: Commit)
    requires Inv(s) && BusyAt(s.workers, w) && s.workers[w].stage.Failing?
    ensures Pays(s, DoResolve(s, w, error, commit), Resolve(w, error, commit))
  {
    hide Shapes, Claims, Linked, Known, Awake, Documents, Pure, Artifacts, Work, IndexHolds, Stamp;
    JobKnown(s, w);
    var jobs, job, t, status := s.db.jobs, s.workers[w].job, DoResolve(s, w, error, commit), FailureStatus(s.workers[w].stage.run);
    if IsStarted(jobs, job) && commit != Unacknowledged(false) {
      hide DoResolve, RowWeight;
      ResolveOutcome(s, w, error, commit);
      ResolveKeeps(s, w, error, commit);
      ResolveHistory(s, w, error, commit);
      FailedWeight(jobs[job], s.workers[w].stage.run, error, s.clock);
      WorkWrite(s, t, w, job, Stamp(jobs[job], status, Some(error), s.clock));
    } else {
      WorkMove(s, t, w);
    }
  }

  lemma PaysInsert(s: State, r: nat, job: Uuid, commit: Commit)
    requires r in s.requests && s.requests[r].Admitted?
    ensures Pays(s, DoInsert(s, r, job, commit), Insert(r, job, commit))
  {
    hide Work, Clash;
    var row := NewJob(s.requests[r].account, s.requests[r].doc, s.cfg.maxAttempts, s.clock);
    var t := DoInsert(s, r, job, commit);
    if InsertJob(s.db, job, row).Ok? && commit != Unacknowledged(false) {
      var u := WithJobs(s, s.db.jobs[job := row]);
      WorkInsert(s, job, row);
      WorkRequest(u, t, r);
    } else {
      WorkRequest(s, t, r);
    }
  }

  lemma WorkInsert(s: State, job: Uuid, row: Job)
    requires job !in s.db.jobs
    ensures Work(WithJobs(s, s.db.jobs[job := row])) == Work(s) + RowWeight(Some(row))
  {
    RowTotal(s.db.jobs, job, row);
  }

  lemma PaysRequest(s: State, step: Step)
    requires Enabled(s, step)
    requires step.Submit? || step.CheckDepth? || step.Publish? || step.Abandon?
    ensures Pays(s, Do(s, step), step)
  {
    hide Work;
    WorkRequest(s, Do(s, step), step.r);
  }

  lemma PaysClient(s: State, step: Step)
    requires Enabled(s, step)
    requires step.Register? || step.Upload? || step.Stop?
    ensures Pays(s, Do(s, step), step)
  {
    hide InsertDocument, Put;
  }

  lemma PaysStart(s: State, w: nat)
    requires w !in s.workers
    ensures Work(s.(workers := s.workers[w := Idle], stopping := s.stopping - {w})) <= Work(s) + Gain(s.cfg)
  {
    TaskTotal(s.workers, w, Some(Idle));
  }

  lemma PaysDo(s: State, step: Step)
    requires Inv(s) && Enabled(s, step)
    ensures Pays(s, Do(s, step), step)
  {
    hide Inv, Work;
    match step
    case Register(_, _) => PaysClient(s, step);
    case Upload(_, _) => PaysClient(s, step);
    case Submit(_, _, _) => PaysRequest(s, step);
    case Start(w) => PaysStart(s, w);
    case Stop(_) => PaysClient(s, step);
    case CheckDepth(_, _) => PaysRequest(s, step);
    case Insert(r, job, commit) => PaysInsert(s, r, job, commit);
    case Publish(_) => PaysRequest(s, step);
    case Abandon(_) => PaysRequest(s, step);
    case Deliver(w, job) => PaysDeliver(s, w, job);
    case Begin(_) => PaysLeave(s, step);
    case ReadStatus(_) => PaysPlain(s, step);
    case SessionFails(_) => PaysTrouble(s, step);
    case Claim(w, commit) => PaysClaim(s, w, commit);
    case ClaimError(_) => PaysTrouble(s, step);
    case Settle(_) => PaysDone(s, step);
    case SettleRaises(_) => PaysTrouble(s, step);
    case Nack(_) => PaysLeave(s, step);
    case Fetch(w) => PaysFetch(s, w);
    case Parse(_) => PaysDone(s, step);
    case Store(w) => PaysStore(s, w);
    case Complete(w, a, commit) => PaysComplete(s, w, a, commit);
    case Raise(_) => PaysPlain(s, step);
    case Resolve(w, error, commit) => PaysResolve(s, w, error, commit);
    case Reenqueue(w, send) => PaysReenqueue(s, w, send);
    case Exit(_) => PaysLeave(s, step);
    case Die(w) => PaysDie(s, w);
    case Redeliver(w) => PaysRedeliver(s, w);
  }
}
