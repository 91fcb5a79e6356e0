/** When a job is marked as stranded, and exactly which events cost a job its owner.  A stranded job has lost one wake-up
    and may still have another; what really costs a job its last one is the subject of Forgetting. */
module Losses {
  import opened Wrappers
  import opened Keys
  import opened Schema
  import opened Protocol
  import opened Ownership
  import opened Wakeups
  import opened Contents
  import opened Frames
  import opened Invariants
  import opened Lifecycle
  import Accounting
  import Completion

  // ------------------------------------------------------------ lost wake-ups

  /** The five ways the code loses a wake-up of a committed QUEUED row. */
  predicate LosesWakeup(s: State, step: Step, job: Uuid)
  {
    match step
    // the INSERT committed, but the request got an exception instead of an answer
    case Insert(r, id, commit) => id == job && commit == Unacknowledged(true) && Insertable(s, r, job)
    // the API process or its call to `enqueue` failed after the commit
    case Abandon(r) => PublishesAt(s.requests, r, job)
    // `enqueue` failed: QueueException is swallowed, anything else kills a worker that has no message to give back
    case Reenqueue(w, send) =>
      AboutTo(s, w, job) && !send.Sent? && !send.published && (send.Refused? || w !in s.broker.unacked)
    // the requeue committed, but the worker did not learn of it and its message had been taken back
    case Resolve(w, _, commit) =>
      OnJob(s, w, job) && s.workers[w].stage.Failing? && FailureStatus(s.workers[w].stage.run).Queued?
      && IsStarted(s.db.jobs, job) && commit == Unacknowledged(true) && w !in s.broker.unacked
    // the worker died between requeue and enqueue, and its message had been taken back
    case Die(w) => AboutTo(s, w, job) && w !in s.broker.unacked
    case _ => false
  }

  /** The INSERT of an admitted request goes through. */
  predicate Insertable(s: State, r: nat, job: Uuid)
  {
    && r in s.requests && s.requests[r].Admitted?
    && InsertJob(s.db, job, NewJob(s.requests[r].account, s.requests[r].doc, s.cfg.maxAttempts, s.clock)).Ok?
  }

  predicate AboutTo(s: State, w: nat, job: Uuid)
  {
    BusyAt(s.workers, w) && s.workers[w] == Busy(job, Requeued)
  }

  predicate OnJob(s: State, w: nat, job: Uuid)
  {
    BusyAt(s.workers, w) && s.workers[w].job == job
  }

  lemma ResolveStrands(s: State, w: nat, error: string, commit: Commit, job: Uuid)
    requires IndexHolds(s.db.jobs) && BusyAt(s.workers, w) && StageOf(s.workers, w).Failing? && job !in s.stranded
    ensures job in DoResolve(s, w, error, commit).stranded <==> LosesWakeup(s, Resolve(w, error, commit), job)
  {
    var own := s.workers[w].job;
    if IsStarted(s.db.jobs, own) {
      UpdateKeepsIndex(s.db.jobs, own, FailureStatus(s.workers[w].stage.run), Status.Started, Some(error), s.clock);
    }
    hide IndexHolds, Stamp, FailureStatus, Clash;
  }

  lemma OtherStrands(s: State, step: Step, job: Uuid)
    requires Enabled(s, step) && job !in s.stranded
    requires step.Register? || step.Upload? || step.Submit? || step.Stop? || step.Redeliver? || step.CheckDepth? || step.Publish?
    ensures job !in Do(s, step).stranded
  {
    hide InsertDocument, Put, Returned;
  }

  lemma RequestStrands(s: State, step: Step, job: Uuid)
    requires Enabled(s, step) && (step.Insert? || step.Abandon?) && job !in s.stranded
    ensures job in Do(s, step).stranded <==> LosesWakeup(s, step, job)
  {
    hide InsertJob;
  }

  lemma WorkerStrands(s: State, step: Step, job: Uuid)
    requires Enabled(s, step) && (step.Die? || step.Reenqueue?) && job !in s.stranded
    ensures job in Do(s, step).stranded <==> LosesWakeup(s, step, job)
  {
    hide Returned, Enqueued;
  }

  /** The mark is set by those five events and by no other step. */
  lemma StrandedStep(s: State, step: Step, job: Uuid)
    requires Inv(s) && Enabled(s, step) && job !in s.stranded
    ensures job in Do(s, step).stranded <==> LosesWakeup(s, step, job)
  {
    hide Do, Enabled, Shapes, Claims, Linked, Known, Awake, Documents, Pure, Artifacts, IndexHolds, LosesWakeup;
    if Actor(step) == None {
      if step.Insert? || step.Abandon? {
        RequestStrands(s, step, job);
      } else {
        OtherStrands(s, step, job);
        HarmlessElse(s, step, job);
      }
    } else if step.Resolve? {
      Completion.ResolveIs(s, step);
      ResolveStrands(s, step.w, step.error, step.commit, job);
    } else if step.Die? || step.Reenqueue? {
      WorkerStrands(s, step, job);
    } else {
      if Transaction(step) { TransactionHistory(s, step); } else { WorkerHistory(s, step); }
      HarmlessElse(s, step, job);
    }
  }

  lemma HarmlessElse(s: State, step: Step, job: Uuid)
    requires !step.Insert? && !step.Abandon? && !step.Reenqueue? && !step.Resolve? && !step.Die?
    ensures !LosesWakeup(s, step, job)
  {
  }

  /** A job is stranded only because one of those events happened to it earlier in the run. */
  lemma {:induction false} StrandedByLoss(cfg: Config, es: seq<Event>, job: Uuid) returns (i: nat)
    requires Valid(cfg) && Run(Initial(cfg), es) && job in After(Initial(cfg), es).stranded
    ensures i < |es| && Run(Initial(cfg), es[..i]) && LosesWakeup(After(Initial(cfg), es[..i]), es[i].step, job)
    decreases |es|
  {
    hide Do, LosesWakeup, Inv;
    assert es != [];
    var p, e := After(Initial(cfg), Front(es)), es[|es| - 1];
    if job in p.stranded {
      i := StrandedByLoss(cfg, Front(es), job);
      assert es[..i] == Front(es)[..i];
    } else {
      i := |es| - 1;
      InitialInv(cfg);
      InvRun(Initial(cfg), Front(es));
      InvLater(p, e.now);
      StrandedStep(p.(clock := e.now), e.step, job);
      LossLater(p, e.now, e.step, job);
    }
  }

  lemma LossLater(s: State, now: nat, step: Step, job: Uuid)
    ensures LosesWakeup(s.(clock := now), step, job) == LosesWakeup(s, step, job)
  {
    if step.Insert? && step.r in s.requests && s.requests[step.r].Admitted? {
      var account, doc := s.requests[step.r].account, s.requests[step.r].doc;
      InsertAnytime(s.db, job, account, doc, s.cfg.maxAttempts, s.clock, now);
    }
    hide InsertJob;
  }

  lemma InsertAnytime(t: Tables, id: Uuid, account: nat, doc: Uuid, maxAttempts: nat, before: nat, now: nat)
    ensures InsertJob(t, id, NewJob(account, doc, maxAttempts, before)).Ok?
            == InsertJob(t, id, NewJob(account, doc, maxAttempts, now)).Ok?
  {
    assert Clash(t.jobs, id, NewJob(account, doc, maxAttempts, before)) == Clash(t.jobs, id, NewJob(account, doc, maxAttempts, now));
  }

  // -------------------------------------------------------- interrupted claims

  /** The ways a claim loses its owner: the worker never learned that it won, could not record the failure, or died. */
  predicate Interrupts(s: State, step: Step, job: Uuid)
  {
    match step
    case Claim(w, commit) =>
      OnJob(s, w, job) && s.workers[w].stage.Checked? && IsQueued(s.db.jobs, job) && commit == Unacknowledged(true)
    case Resolve(w, _, commit) =>
      OnJob(s, w, job) && s.workers[w].stage.Failing? && IsStarted(s.db.jobs, job) && commit == Unacknowledged(false)
    case Die(w) => OnJob(s, w, job) && Unresolved(s.workers[w].stage) && IsStarted(s.db.jobs, job)
    case _ => false
  }

  lemma ClaimOrphans(s: State, w: nat, commit: Commit, job: Uuid)
    requires IndexHolds(s.db.jobs) && BusyAt(s.workers, w) && s.workers[w].stage.Checked? && job !in s.orphaned
    ensures job in DoClaim(s, w, commit).orphaned <==> Interrupts(s, Claim(w, commit), job)
  {
    var own := s.workers[w].job;
    if IsQueued(s.db.jobs, own) {
      UpdateKeepsIndex(s.db.jobs, own, Status.Started, Status.Queued, None, s.clock);
    }
    hide IndexHolds, Clash;
  }

  lemma ResolveOrphans(s: State, w: nat, error: string, commit: Commit, job: Uuid)
    requires IndexHolds(s.db.jobs) && BusyAt(s.workers, w) && s.workers[w].stage.Failing? && job !in s.orphaned
    ensures job in DoResolve(s, w, error, commit).orphaned <==> Interrupts(s, Resolve(w, error, commit), job)
  {
    var own := s.workers[w].job;
    if IsStarted(s.db.jobs, own) {
      UpdateKeepsIndex(s.db.jobs, own, FailureStatus(s.workers[w].stage.run), Status.Started, Some(error), s.clock);
    }
    hide IndexHolds, Stamp, FailureStatus, Clash;
  }

  lemma DeathOrphans(s: State, step: Step, job: Uuid)
    requires Enabled(s, step) && step.Die? && job !in s.orphaned
    ensures job in Do(s, step).orphaned <==> Interrupts(s, step, job)
  {
    hide Returned;
  }

  lemma OwnedElse(s: State, step: Step, job: Uuid)
    requires !step.Claim? && !step.Resolve? && !step.Die?
    ensures !Interrupts(s, step, job)
  {
  }

  /** A step orphans a job if and only if it is one of those events. */
  lemma OrphanedStep(s: State, step: Step, job: Uuid)
    requires Inv(s) && Enabled(s, step) && job !in s.orphaned
    ensures job in Do(s, step).orphaned <==> Interrupts(s, step, job)
  {
    hide Do, Enabled, Shapes, Claims, Linked, Known, Awake, Documents, Pure, Artifacts, IndexHolds, Interrupts;
    if step.Claim? {
      Accounting.ClaimIs(s, step);
      ClaimOrphans(s, step.w, step.commit, job);
    } else if step.Resolve? {
      Completion.ResolveIs(s, step);
      ResolveOrphans(s, step.w, step.error, step.commit, job);
    } else if step.Die? {
      DeathOrphans(s, step, job);
    } else {
      if Actor(step) == None { OthersKeepWorkers(s, step); }
      else if Transaction(step) { TransactionHistory(s, step); }
      else { WorkerHistory(s, step); }
      OwnedElse(s, step, job);
    }
  }

  /** A job is orphaned only because one of those events happened to its owner earlier in the run. */
  lemma {:induction false} OrphanedByInterruption(cfg: Config, es: seq<Event>, job: Uuid) returns (i: nat)
    requires Valid(cfg) && Run(Initial(cfg), es) && job in After(Initial(cfg), es).orphaned
    ensures i < |es| && Run(Initial(cfg), es[..i]) && Interrupts(After(Initial(cfg), es[..i]), es[i].step, job)
    decreases |es|
  {
    hide Do, Interrupts, Inv;
    assert es != [];
    var p, e := After(Initial(cfg), Front(es)), es[|es| - 1];
    if job in p.orphaned {
      i := OrphanedByInterruption(cfg, Front(es), job);
      assert es[..i] == Front(es)[..i];
    } else {
      i := |es| - 1;
      InitialInv(cfg);
      InvRun(Initial(cfg), Front(es));
      InvLater(p, e.now);
      OrphanedStep(p.(clock := e.now), e.step, job);
      InterruptLater(p, e.now, e.step, job);
    }
  }

  lemma InterruptLater(s: State, now: nat, step: Step, job: Uuid)
    ensures Interrupts(s.(clock := now), step, job) == Interrupts(s, step, job)
  {
  }
}
