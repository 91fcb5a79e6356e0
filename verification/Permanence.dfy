/** What nothing can undo: interrupted claims, and QUEUED rows that nobody will look at again. */
module Permanence {
  import opened Wrappers
  import opened Keys
  import opened Schema
  import opened Protocol
  import opened Ownership
  import opened Wakeups
  import opened Contents
  import opened Frames
  import opened Invariants
  import opened Lifecycle

  // ------------------------------------------------------- interrupted claims

  lemma OrphanStep(s: State, step: Step, job: Uuid)
    requires Inv(s) && Enabled(s, step) && job in s.orphaned
    ensures job in Do(s, step).orphaned && RowAt(Do(s, step).db.jobs, job) == RowAt(s.db.jobs, job)
  {
    hide Inv, Do, Enabled, Edge, Shapes, Linked, Known, Awake, Documents, Pure, Artifacts, IndexHolds;
    HistoryGrows(s, step);
    OrphanUnclaimed(s, job);
    RowStep(s, step, job);
    RowStays(s, step, job);
  }

  lemma RowStays(s: State, step: Step, job: Uuid)
    requires Inv(s) && Enabled(s, step) && job in s.db.jobs
    ensures job in Do(s, step).db.jobs
  {
    hide Inv, Do, Enabled;
    RowStep(s, step, job);
  }

  lemma OrphanUnclaimed(s: State, job: Uuid)
    requires Inv(s) && job in s.orphaned
    ensures IsStarted(s.db.jobs, job)
    ensures forall w: nat :: !HoldsClaim(s.workers, w, job)
  {
    hide Shapes, Linked, Known, Awake, Documents, Pure, Artifacts, IndexHolds;
  }

  /** While a document has an active job, an INSERT for it leaves only the refusal. */
  lemma ActiveJobBlocks(s: State, r: nat, id: Uuid, commit: Commit, job: Uuid)
    requires r in s.requests && s.requests[r].Admitted?
    requires job in s.db.jobs && Active(s.db.jobs[job])
    requires s.db.jobs[job].account == s.requests[r].account && s.db.jobs[job].doc == s.requests[r].doc
    ensures DoInsert(s, r, id, commit) == Close(s, r)
  {
    var row := NewJob(s.requests[r].account, s.requests[r].doc, s.cfg.maxAttempts, s.clock);
    assert SameDocument(s.db.jobs[job], row);
    if id !in s.db.jobs { assert Clash(s.db.jobs, id, row); }
  }

  /** After its owner died or raised, a STARTED row keeps every column in every continuation; nobody owns it
      again, each message for it is dropped, also after a stale read of QUEUED, and each new job for its document is refused. */
  lemma {:induction false} InterruptedForever(s: State, es: seq<Event>, job: Uuid)
    requires Inv(s) && Run(s, es) && job in s.orphaned
    ensures var t := After(s, es);
            && job in t.orphaned
            && RowAt(t.db.jobs, job) == RowAt(s.db.jobs, job)
            && IsStarted(t.db.jobs, job)
            && (forall w: nat :: !HoldsClaim(t.workers, w, job))
            && (forall w :: BusyAt(t.workers, w) && t.workers[w].job == job && t.workers[w].stage.Received? ==>
                  DoReadStatus(t, w) == Move(t, w, Dropping))
            && (forall w, commit | BusyAt(t.workers, w) && t.workers[w].job == job && t.workers[w].stage.Checked? ::
                  DoClaim(t, w, commit) == Move(t, w, Dropping))
            && (forall r, id, commit | r in t.requests
                  && t.requests[r] == Admitted(t.db.jobs[job].account, t.db.jobs[job].doc) ::
                  DoInsert(t, r, id, commit) == Close(t, r))
  {
    hide Inv, Do, Enabled, DoInsert, DoReadStatus, DoClaim;
    var t := After(s, es);
    if es != [] {
      InterruptedForever(s, Front(es), job);
      InvRun(s, Front(es));
      var p, e := After(s, Front(es)), es[|es| - 1];
      InvLater(p, e.now);
      EnabledLater(p, e.now, e.step);
      OrphanStep(p.(clock := e.now), e.step, job);
    }
    InvRun(s, es);
    OrphanUnclaimed(t, job);
    forall r, id, commit | r in t.requests && t.requests[r] == Admitted(t.db.jobs[job].account, t.db.jobs[job].doc)
      ensures DoInsert(t, r, id, commit) == Close(t, r)
    {
      ActiveJobBlocks(t, r, id, commit, job);
    }
    forall w | BusyAt(t.workers, w) && t.workers[w].job == job && t.workers[w].stage.Received?
      ensures DoReadStatus(t, w) == Move(t, w, Dropping)
    {
      StartedIsDropped(t, w);
    }
    forall w, commit | BusyAt(t.workers, w) && t.workers[w].job == job && t.workers[w].stage.Checked?
      ensures DoClaim(t, w, commit) == Move(t, w, Dropping)
    {
      StaleReadIsDropped(t, w, commit);
    }
  }

  /** A claim after a stale read of QUEUED conflicts with a STARTED row. */
  lemma StaleReadIsDropped(s: State, w: nat, commit: Commit)
    requires BusyAt(s.workers, w) && IsStarted(s.db.jobs, s.workers[w].job)
    ensures DoClaim(s, w, commit) == Move(s, w, Dropping)
  {
  }

  lemma StartedIsDropped(s: State, w: nat)
    requires BusyAt(s.workers, w) && IsStarted(s.db.jobs, s.workers[w].job)
    ensures DoReadStatus(s, w) == Move(s, w, Dropping)
  {
  }

  // ------------------------------------------------------------ forgotten rows

  /** The worker will neither claim its job nor give a message back. */
  predicate Spent(task: Task, held: bool, stopping: bool)
  {
    && task.Busy? && !held
    && (task.stage.Dropping? || task.stage.Nacking? || task.stage.Raised? || task.stage.Settling?
        || (task.stage.Delivered? && stopping))
  }

  /** A QUEUED row with no message, no request about to publish one, and no worker that could still act on it. */
  ghost predicate Forgotten(s: State, job: Uuid)
  {
    && IsQueued(s.db.jobs, job)
    && job !in s.broker.ready
    && (forall w :: w in s.workers && s.workers[w].Busy? && s.workers[w].job == job ==>
          Spent(s.workers[w], w in s.broker.unacked, w in s.stopping))
    && (forall r :: !PublishesAt(s.requests, r, job))
  }

  /** Where a ready message can come from. */
  lemma ReadySources(s: State, step: Step, job: Uuid)
    requires Linked(s.broker, s.workers) && Enabled(s, step)
    requires job in Do(s, step).broker.ready && job !in s.broker.ready
    ensures || (step.Publish? && PublishesAt(s.requests, step.r, job))
            || (step.Reenqueue? && s.workers[step.w].job == job)
            || (exists w :: w in s.broker.unacked && BusyAt(s.workers, w) && s.workers[w].job == job)
  {
    hide Do;
    BrokerStep(s, step);
  }

  /** A request only ever starts to publish a job it has just inserted. */
  lemma NewPublisher(s: State, step: Step, r: nat, job: Uuid)
    requires Enabled(s, step)
    requires PublishesAt(Do(s, step).requests, r, job) && !PublishesAt(s.requests, r, job)
    ensures job !in s.db.jobs
  {
    hide Do, Enabled;
    if Actor(step) == None { InsertPublishes(s, step, r, job); }
    else if Transaction(step) { TransactionKeeps(s, step); }
    else { WorkerKeeps(s, step); }
  }

  lemma InsertPublishes(s: State, step: Step, r: nat, job: Uuid)
    requires Enabled(s, step) && Actor(step) == None
    requires PublishesAt(Do(s, step).requests, r, job) && !PublishesAt(s.requests, r, job)
    ensures job !in s.db.jobs
  {
    hide InsertDocument, Clash, Put, Protocol.Returned;
  }

  /** A spent worker stays spent until it rests or leaves. */
  lemma SpentStays(s: State, step: Step, w: nat)
    requires Enabled(s, step) && w in s.workers && Actor(step) == Some(w)
    requires Spent(s.workers[w], w in s.broker.unacked, w in s.stopping)
    ensures var t := Do(s, step);
            w in t.workers && t.workers[w].Busy? ==>
              t.workers[w].job == s.workers[w].job && Spent(t.workers[w], w in t.broker.unacked, w in t.stopping)
  {
    hide DoClaim, DoComplete, DoResolve;
  }

  /** Only a worker that leaves stops stopping. */
  lemma StoppingStays(s: State, step: Step, w: nat)
    requires Enabled(s, step) && w in s.stopping && w in s.workers
    ensures w in Do(s, step).workers ==> w in Do(s, step).stopping
  {
    hide Do, Enabled;
    if Actor(step) != Some(w) {
      if Actor(step) == None { OthersStopping(s, step); } else { StoppingFrame(s, step, w); }
    } else if Transaction(step) {
      TransactionKeeps(s, step);
    } else if w in Do(s, step).workers {
      LeavingStops(s, step, w);
    }
  }

  lemma LeavingStops(s: State, step: Step, w: nat)
    requires Enabled(s, step) && Actor(step) == Some(w) && !Transaction(step) && w in s.workers
    requires w in Do(s, step).workers
    ensures w in Do(s, step).stopping <==> w in s.stopping
  {
    hide Put, Enqueued, Returned, Acked;
  }

  lemma ForgottenWorkers(s: State, step: Step, job: Uuid, w: nat)
    requires Inv(s) && Enabled(s, step) && Forgotten(s, job)
    requires w in Do(s, step).workers && Do(s, step).workers[w].Busy? && Do(s, step).workers[w].job == job
    ensures Spent(Do(s, step).workers[w], w in Do(s, step).broker.unacked, w in Do(s, step).stopping)
  {
    hide Do, Inv, Enabled;
    TasksFrame(s, step);
    BrokerStep(s, step);
    if Actor(step) == Some(w) {
      OwnJob(s, step, w);
      if w in s.workers && s.workers[w].Busy? { SpentStays(s, step, w); }
    } else {
      if w in s.stopping { StoppingStays(s, step, w); }
      if step.Deliver? { DeliverIs(s, step); }
    }
  }

  /** A worker takes up a job only by a delivery. */
  lemma OwnJob(s: State, step: Step, w: nat)
    requires Enabled(s, step) && Actor(step) == Some(w)
    requires w in Do(s, step).workers && Do(s, step).workers[w].Busy?
    ensures || (w in s.workers && s.workers[w].Busy? && s.workers[w].job == Do(s, step).workers[w].job)
            || (step.Deliver? && Do(s, step).workers[w].job in s.broker.ready)
  {
    hide Do, Enabled;
    if Transaction(step) {
      TransactionJob(s, step);
    } else if step.Fetch? || step.Parse? || step.Store? || step.Raise? || step.SettleRaises? {
      ProcessorJob(s, step, w);
    } else {
      WorkerJob(s, step, w);
    }
  }

  lemma TransactionJob(s: State, step: Step)
    requires Enabled(s, step) && Transaction(step)
    ensures BusyAt(s.workers, step.w) && BusyAt(Do(s, step).workers, step.w)
    ensures Do(s, step).workers[step.w].job == s.workers[step.w].job
  {
    hide DoClaim, DoComplete, DoResolve;
    match step
    case Claim(w, commit) => ClaimJob(s, w, commit);
    case Complete(w, a, commit) => CompleteJob(s, w, a, commit);
    case Resolve(w, error, commit) => ResolveJob(s, w, error, commit);
  }

  lemma ProcessorJob(s: State, step: Step, w: nat)
    requires Enabled(s, step) && Actor(step) == Some(w)
    requires step.Fetch? || step.Parse? || step.Store? || step.Raise? || step.SettleRaises?
    ensures BusyAt(s.workers, w) && BusyAt(Do(s, step).workers, w)
    ensures Do(s, step).workers[w].job == s.workers[w].job
  {
    hide Put, ArtifactKey;
  }

  lemma WorkerJob(s: State, step: Step, w: nat)
    requires Enabled(s, step) && Actor(step) == Some(w) && !Transaction(step)
    requires !step.Fetch? && !step.Parse? && !step.Store? && !step.Raise? && !step.SettleRaises?
    requires w in Do(s, step).workers && Do(s, step).workers[w].Busy?
    ensures || (w in s.workers && s.workers[w].Busy? && s.workers[w].job == Do(s, step).workers[w].job)
            || (step.Deliver? && Do(s, step).workers[w].job in s.broker.ready)
  {
    hide Enqueued, Returned, Acked;
  }

  lemma DeliverIs(s: State, step: Step)
    requires Enabled(s, step) && step.Deliver?
    ensures Actor(step) == Some(step.w) && TrafficOf(s, step) == Taken(step.w, step.job)
  {
  }

  lemma ForgottenStep(s: State, step: Step, job: Uuid)
    requires Inv(s) && Enabled(s, step) && Forgotten(s, job)
    ensures Forgotten(Do(s, step), job) && RowAt(Do(s, step).db.jobs, job) == RowAt(s.db.jobs, job)
  {
    hide Inv, Do, Enabled, Edge;
    var t := Do(s, step);
    RowStep(s, step, job);
    RowStays(s, step, job);
    ForgottenUnwritten(s, step, job);
    if job in t.broker.ready {
      LinkedOf(s);
      ReadySources(s, step, job);
      ReenqueueStage(s, step);
    }
    forall w | w in t.workers && t.workers[w].Busy? && t.workers[w].job == job
      ensures Spent(t.workers[w], w in t.broker.unacked, w in t.stopping)
    {
      ForgottenWorkers(s, step, job, w);
    }
    forall r: nat ensures !PublishesAt(t.requests, r, job) {
      if PublishesAt(t.requests, r, job) { NewPublisher(s, step, r, job); }
    }
  }

  lemma LinkedOf(s: State)
    requires Inv(s)
    ensures Linked(s.broker, s.workers)
  {
  }

  lemma ReenqueueStage(s: State, step: Step)
    requires Enabled(s, step)
    ensures step.Reenqueue? ==> BusyAt(s.workers, step.w) && s.workers[step.w].stage.Requeued?
    ensures step.Claim? ==> BusyAt(s.workers, step.w) && s.workers[step.w].stage.Checked?
  {
  }

  lemma ForgottenUnwritten(s: State, step: Step, job: Uuid)
    requires Enabled(s, step) && Forgotten(s, job)
    ensures !Written(s, step, job)
  {
    hide Enabled;
    ReenqueueStage(s, step);
  }

  /** A forgotten row stays QUEUED with the same columns, and forgotten, in every continuation. */
  lemma {:induction false} ForgottenForever(s: State, es: seq<Event>, job: Uuid)
    requires Inv(s) && Run(s, es) && Forgotten(s, job)
    ensures Forgotten(After(s, es), job) && RowAt(After(s, es).db.jobs, job) == RowAt(s.db.jobs, job)
  {
    hide Inv, Do, Enabled, Forgotten;
    if es != [] {
      ForgottenForever(s, Front(es), job);
      InvRun(s, Front(es));
      var p, e := After(s, Front(es)), es[|es| - 1];
      InvLater(p, e.now);
      EnabledLater(p, e.now, e.step);
      ForgottenLater(p, e.now, job);
      ForgottenStep(p.(clock := e.now), e.step, job);
    }
  }

  lemma ForgottenLater(s: State, now: nat, job: Uuid)
    requires Forgotten(s, job)
    ensures Forgotten(s.(clock := now), job)
  {
  }
}
