/** Each step of a consumer as one equation on states, for the code that performs it. */
module Effects {
  import opened Wrappers
  import opened Keys
  import opened Schema
  import opened Protocol
  import opened Ownership
  import opened Wakeups
  import opened Contents
  import opened Invariants
  import opened Frames

  /** Steps that only a raising service call can cause. */
  predicate Faulty(step: Step)
  {
    match step
    case Insert(_, _, commit) => !commit.Acknowledged?
    case Abandon(_) => true
    case SessionFails(_) => true
    case Claim(_, commit) => !commit.Acknowledged?
    case ClaimError(_) => true
    case SettleRaises(_) => true
    case Complete(_, _, commit) => !commit.Acknowledged?
    case Raise(_) => true
    case Resolve(_, _, commit) => !commit.Acknowledged?
    case Reenqueue(_, send) => !send.Sent?
    case Die(_) => true
    case _ => false
  }

  /** `step` of worker `w` can happen at time `now`; it leaves these tables, objects and messages, and the worker at
      `task`. */
  ghost predicate Effect(s: State, now: nat, step: Step, w: nat, db: Tables, objects: Objects, broker: Broker, task: Task)
  {
    && Enabled(s, step) && Enabled(s.(clock := now), step)
    && !step.Start? && Actor(step) == Some(w)
    && var t := Do(s.(clock := now), step);
       t.db == db && t.objects == objects && t.broker == broker && t.workers == s.workers[w := task]
  }

  lemma EffectIs(s: State, now: nat, step: Step, w: nat, db: Tables, objects: Objects, broker: Broker, task: Task)
    requires Effect(s, now, step, w, db, objects, broker, task)
    ensures Enabled(s, step) && Enabled(s.(clock := now), step) && !step.Start? && !step.Stop? && Actor(step) == Some(w)
    ensures var t := Do(s.(clock := now), step);
            t.db == db && t.objects == objects && t.broker == broker && t.workers == s.workers[w := task]
  {
  }

  /** The worker moves to `stage` and touches nothing else. */
  ghost predicate Moves(s: State, now: nat, step: Step, w: nat, stage: Stage)
    requires BusyAt(s.workers, w)
  {
    Effect(s, now, step, w, s.db, s.objects, s.broker, Busy(s.workers[w].job, stage))
  }

  lemma RaiseMoves(s: State, now: nat, w: nat)
    requires BusyAt(s.workers, w) && Unresolved(s.workers[w].stage) && !s.workers[w].stage.Failing?
    ensures Moves(s, now, Raise(w), w, Failing(s.workers[w].stage.run))
  {
  }

  lemma FetchMoves(s: State, now: nat, w: nat, row: Job, content: Bytes)
    requires Inv(s) && BusyAt(s.workers, w) && s.workers[w].stage.Claimed?
    requires s.workers[w].job in s.db.jobs && SameDocument(row, s.db.jobs[s.workers[w].job])
    requires var key := RawKey(row.account, row.doc);
             key in s.objects && s.objects[key] != [] && content == s.objects[key][|s.objects[key]| - 1]
    ensures Moves(s, now, Fetch(w), w, Fetched(s.workers[w].stage.run, Target(row.account, row.doc), content))
    ensures !Faulty(Fetch(w))
  {
    hide Inv, RawKey;
    WorkedDocument(s, w);
  }

  /** The document of a job a worker works on. */
  lemma WorkedDocument(s: State, w: nat)
    requires Inv(s) && BusyAt(s.workers, w)
    ensures s.workers[w].job in s.db.jobs
    ensures var row := s.db.jobs[s.workers[w].job];
            GetDocument(s.db.docs, row.doc, row.account) == Some(Document(row.account, RawKey(row.account, row.doc)))
  {
    hide Shapes, Claims, Linked, Known, Awake, Documents, Pure, Artifacts, IndexHolds;
    JobKnown(s, w);
    JobUploaded(s, s.workers[w].job);
  }

  lemma ParseMoves(s: State, now: nat, w: nat)
    requires BusyAt(s.workers, w) && s.workers[w].stage.Fetched?
    ensures var g := s.workers[w].stage; Moves(s, now, Parse(w), w, Parsed(g.run, g.target, s.cfg.parse(g.content)))
    ensures !Faulty(Parse(w))
  {
  }

  lemma StoreEffect(s: State, now: nat, w: nat)
    requires BusyAt(s.workers, w) && s.workers[w].stage.Parsed?
    ensures var g := s.workers[w].stage;
            var objects := Put(s.objects, ArtifactKey(g.target.account, g.target.doc), s.cfg.encode(g.markdown));
            Effect(s, now, Store(w), w, s.db, objects, s.broker, Busy(s.workers[w].job, Stored(g.run, g.target)))
    ensures !Faulty(Store(w))
  {
    hide Put, ArtifactKey;
  }

  lemma CompleteEffect(s: State, now: nat, w: nat, a: Uuid, commit: Commit)
    requires BusyAt(s.workers, w) && s.workers[w].stage.Stored?
    ensures var g, job := s.workers[w].stage, s.workers[w].job;
            var r := CompletedTables(s.db, job, g.target, a, now);
            Effect(s, now, Complete(w, a, commit), w, if r.Err? || commit == Unacknowledged(false) then s.db else r.value,
                   s.objects, s.broker, Busy(job, if r.Ok? && commit.Acknowledged? then Acking(g.run) else Failing(g.run)))
    ensures Faulty(Complete(w, a, commit)) <==> !commit.Acknowledged?
  {
    hide CompletedTables;
  }

  lemma ReadMoves(s: State, now: nat, w: nat)
    requires BusyAt(s.workers, w) && s.workers[w].stage.Received?
    ensures Moves(s, now, ReadStatus(w), w, if IsQueued(s.db.jobs, s.workers[w].job) then Checked else Dropping)
    ensures !Faulty(ReadStatus(w))
  {
  }

  lemma SessionMoves(s: State, now: nat, w: nat)
    requires BusyAt(s.workers, w) && (s.workers[w].stage.Received? || s.workers[w].stage.Checked?)
    ensures Moves(s, now, SessionFails(w), w, Raised)
  {
  }

  lemma ClaimErrorMoves(s: State, now: nat, w: nat)
    requires BusyAt(s.workers, w) && s.workers[w].stage.Checked?
    ensures Moves(s, now, ClaimError(w), w, Nacking)
  {
  }

  lemma ClaimEffect(s: State, now: nat, w: nat, commit: Commit)
    requires BusyAt(s.workers, w) && s.workers[w].stage.Checked?
    ensures var job := s.workers[w].job;
            var r := UpdateStatus(s.db.jobs, job, Started, Queued, None, now);
            && (r == Err(StateConflict) ==> Moves(s, now, Claim(w, commit), w, Dropping))
            && (r.Ok? ==>
                  Effect(s, now, Claim(w, commit), w,
                         if commit == Unacknowledged(false) then s.db else s.db.(jobs := r.value), s.objects, s.broker,
                         Busy(job, if commit.Acknowledged?
                                   then Claimed(Attempt(r.value[job].attempts, r.value[job].maxAttempts)) else Raised)))
    ensures Faulty(Claim(w, commit)) <==> !commit.Acknowledged?
  {
    hide UpdateStatus;
  }

  lemma ResolveEffect(s: State, now: nat, w: nat, error: string, commit: Commit)
    requires BusyAt(s.workers, w) && s.workers[w].stage.Failing?
    ensures var job, status := s.workers[w].job, FailureStatus(s.workers[w].stage.run);
            var r := UpdateStatus(s.db.jobs, job, status, Started, Some(error), now);
            && (r == Err(StateConflict) && commit.Acknowledged? ==> Moves(s, now, Resolve(w, error, commit), w, Settling(false)))
            && (commit == Unacknowledged(false) ==> Moves(s, now, Resolve(w, error, commit), w, Raised))
            && (r.Ok? && commit != Unacknowledged(false) ==>
                  Effect(s, now, Resolve(w, error, commit), w, s.db.(jobs := r.value), s.objects, s.broker,
                         Busy(job, if !commit.Acknowledged? then Raised
                                   else if status.Queued? then Requeued else Settling(false))))
    ensures Faulty(Resolve(w, error, commit)) <==> !commit.Acknowledged?
  {
    hide UpdateStatus, FailureStatus;
  }

  lemma SettleEffect(s: State, now: nat, w: nat)
    requires BusyAt(s.workers, w)
    requires s.workers[w].stage.Dropping? || s.workers[w].stage.Acking? || s.workers[w].stage.Settling?
    ensures Effect(s, now, Settle(w), w, s.db, s.objects, Acked(s.broker, w), Idle)
    ensures !Faulty(Settle(w))
  {
    hide Acked;
  }

  lemma SettleRaisesMoves(s: State, now: nat, w: nat)
    requires BusyAt(s.workers, w)
    requires s.workers[w].stage.Dropping? || s.workers[w].stage.Nacking? || s.workers[w].stage.Acking? || s.workers[w].stage.Settling?
    ensures var g := s.workers[w].stage;
            Moves(s, now, SettleRaises(w), w, if g.Acking? then Failing(g.run) else Raised)
  {
  }

  lemma NackEffect(s: State, now: nat, w: nat)
    requires BusyAt(s.workers, w) && s.workers[w].stage.Nacking?
    ensures Effect(s, now, Nack(w), w, s.db, s.objects, Returned(s.broker, w), Idle)
    ensures !Faulty(Nack(w))
  {
    hide Returned;
  }

  function Settlement(send: Send): (stage: Stage)
  {
    if send.Broken? then Raised else Settling(send.Sent? || send.published)
  }

  lemma ReenqueueEffect(s: State, now: nat, w: nat, send: Send)
    requires BusyAt(s.workers, w) && s.workers[w].stage.Requeued?
    ensures Effect(s, now, Reenqueue(w, send), w, s.db, s.objects,
                   if send.Sent? || send.published then Enqueued(s.broker, s.workers[w].job) else s.broker,
                   Busy(s.workers[w].job, Settlement(send)))
    ensures Faulty(Reenqueue(w, send)) <==> !send.Sent?
  {
    hide Enqueued;
  }

  lemma DeliverEffect(s: State, now: nat, w: nat, job: Uuid)
    requires Linked(s.broker, s.workers) && w in s.workers && s.workers[w].Idle? && job in s.broker.ready
    ensures Effect(s, now, Deliver(w, job), w, s.db, s.objects,
                   Broker(s.broker.ready - multiset{job}, s.broker.unacked[w := job]), Busy(job, Delivered))
    ensures !Faulty(Deliver(w, job))
  {
  }

  lemma BeginMoves(s: State, now: nat, w: nat)
    requires BusyAt(s.workers, w) && s.workers[w].stage.Delivered? && w !in s.stopping
    ensures Moves(s, now, Begin(w), w, Received)
    ensures !Faulty(Begin(w))
  {
  }

  /** A worker that leaves the loop or the process gives its message back. */
  lemma LeaveEffect(s: State, now: nat, w: nat)
    requires w in s.workers
    requires s.workers[w].Busy? ==> s.workers[w].stage.Raised? || s.workers[w].stage.Delivered?
    ensures var step := if s.workers[w].Idle? then Die(w) else if s.workers[w].stage.Raised? then Exit(w) else Begin(w);
            var p := s.(clock := now);
            && Enabled(s, step) && Enabled(p, step) && Actor(step) == Some(w)
            && (step.Begin? ==> !Faulty(step) && (w in s.stopping ==> Do(p, step) == Gone(p, w)))
            && (step.Exit? ==> !Faulty(step))
            && (!step.Begin? ==> Do(p, step) == Gone(p, w))
  {
    hide Gone;
  }
}
