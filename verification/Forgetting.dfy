/** Exactly which events leave a QUEUED row without anybody who will ever look at it again. */
module Forgetting {
  import opened Wrappers
  import opened Keys
  import opened Schema
  import opened Protocol
  import opened Ownership
  import opened Wakeups
  import opened Contents
  import opened Frames
  import opened Invariants
  import opened Lifecycle
  import opened Permanence
  import opened Losses
  import Recovery

  // ------------------------------------------------------------------ the events

  /** No worker but `w` can still act on the job. */
  ghost predicate OthersSpent(s: State, w: nat, job: Uuid)
  {
    forall v :: v in s.workers && v != w && s.workers[v].Busy? && s.workers[v].job == job ==>
      Spent(s.workers[v], v in s.broker.unacked, v in s.stopping)
  }

  ghost predicate NoPublisher(s: State, job: Uuid)
  {
    forall r :: !PublishesAt(s.requests, r, job)
  }

  predicate OwnSpent(s: State, w: nat, job: Uuid)
  {
    w in s.workers && s.workers[w].Busy? && s.workers[w].job == job ==>
      Spent(s.workers[w], w in s.broker.unacked, w in s.stopping)
  }

  /** Nothing but worker `w` can still bring the job to a claim. */
  ghost predicate Alone(s: State, w: nat, job: Uuid)
  {
    job !in s.broker.ready && OthersSpent(s, w, job) && NoPublisher(s, job)
  }

  /** Worker `w` is all that is left for the QUEUED job, and the broker no longer attributes a message to it. */
  ghost predicate LastHope(s: State, w: nat, job: Uuid)
  {
    OnJob(s, w, job) && IsQueued(s.db.jobs, job) && w !in s.broker.unacked && Alone(s, w, job)
  }

  ghost predicate OnlyPublisher(s: State, r: nat, job: Uuid)
  {
    && PublishesAt(s.requests, r, job)
    && (forall q :: q != r ==> !PublishesAt(s.requests, q, job))
    && (forall v :: v in s.workers && s.workers[v].Busy? && s.workers[v].job == job ==>
          Spent(s.workers[v], v in s.broker.unacked, v in s.stopping))
  }

  /** The events that take away the last ready copy, worker or publisher of a QUEUED row, or make a row without any. */
  ghost predicate Forgets(s: State, step: Step, job: Uuid)
  {
    match step
    // the INSERT committed, but the request got an exception instead of an answer
    case Insert(r, id, commit) => id == job && commit == Unacknowledged(true) && Insertable(s, r, job)
    // the enqueue after the commit failed, or its process died
    case Abandon(r) => OnlyPublisher(s, r, job) && IsQueued(s.db.jobs, job) && job !in s.broker.ready
    // the last message of the job is acked although the row is QUEUED
    case Settle(w) => OnJob(s, w, job) && IsQueued(s.db.jobs, job) && w in s.broker.unacked && Alone(s, w, job)
    // the requeue committed unseen, by a worker whose message had been taken back
    case Resolve(w, _, commit) =>
      && OnJob(s, w, job) && s.workers[w].stage.Failing? && FailureStatus(s.workers[w].stage.run).Queued?
      && IsStarted(s.db.jobs, job) && commit == Unacknowledged(true) && w !in s.broker.unacked && Alone(s, w, job)
    // a worker whose message had been taken back fails before its claim, is told to stop, dies, or cannot re-enqueue
    case SessionFails(w) => LastHope(s, w, job)
    case ClaimError(w) => LastHope(s, w, job)
    case Claim(w, commit) => LastHope(s, w, job) && commit == Unacknowledged(false)
    case Stop(w) => LastHope(s, w, job) && s.workers[w].stage.Delivered?
    case Die(w) => LastHope(s, w, job)
    case Reenqueue(w, send) => LastHope(s, w, job) && !send.Sent? && !send.published
    case _ => false
  }

  // ------------------------------------------------------- one worker's own step

  /** Only worker `w` may differ between the two states. */
  ghost predicate Elsewhere(s: State, t: State, w: nat)
  {
    && t.requests == s.requests
    && SameOthers(s.workers, t.workers, w)
    && t.stopping - {w} == s.stopping - {w}
    && t.broker.unacked - {w} == s.broker.unacked - {w}
  }

  lemma ForgottenIs(s: State, w: nat, job: Uuid)
    ensures Forgotten(s, job) <==> IsQueued(s.db.jobs, job) && Alone(s, w, job) && OwnSpent(s, w, job)
  {
  }

  lemma OthersKept(s: State, t: State, w: nat, job: Uuid)
    requires Elsewhere(s, t, w)
    ensures OthersSpent(t, w, job) == OthersSpent(s, w, job) && NoPublisher(t, job) == NoPublisher(s, job)
  {
    forall v: nat | v != w
      ensures v in t.workers <==> v in s.workers
      ensures v in s.workers ==> t.workers[v] == s.workers[v]
      ensures v in t.broker.unacked <==> v in s.broker.unacked
      ensures v in t.stopping <==> v in s.stopping
    {
      assert v in t.broker.unacked - {w} <==> v in s.broker.unacked - {w};
      assert v in t.stopping - {w} <==> v in s.stopping - {w};
    }
  }

  /** Traffic that concerns no consumer but `w`. */
  predicate OwnTraffic(traffic: Traffic, w: nat)
  {
    match traffic
    case Taken(v, _) => v == w
    case Settled(v) => v == w
    case GivenBack(v) => v == w
    case _ => true
  }

  lemma CarriedElsewhere(b: Broker, traffic: Traffic, w: nat)
    requires OwnTraffic(traffic, w)
    ensures Carried(b, traffic).unacked - {w} == b.unacked - {w}
  {
  }

  lemma TrafficIsOwn(s: State, step: Step, w: nat)
    requires Enabled(s, step) && (Actor(step) == Some(w) || step == Redeliver(w) || step == Stop(w))
    ensures OwnTraffic(TrafficOf(s, step), w)
  {
  }

  lemma TrafficElsewhere(s: State, step: Step, w: nat)
    requires Enabled(s, step) && (Actor(step) == Some(w) || step == Redeliver(w) || step == Stop(w))
    ensures Do(s, step).broker.unacked - {w} == s.broker.unacked - {w}
  {
    hide Do, Enabled, Carried, TrafficOf, OwnTraffic, Actor;
    BrokerStep(s, step);
    TrafficIsOwn(s, step, w);
    CarriedElsewhere(s.broker, TrafficOf(s, step), w);
  }

  lemma WorkerElsewhere(s: State, step: Step, w: nat)
    requires Enabled(s, step) && (Actor(step) == Some(w) || step == Redeliver(w) || step == Stop(w))
    ensures Elsewhere(s, Do(s, step), w)
  {
    hide Do, Enabled;
    TrafficElsewhere(s, step, w);
    TasksFrame(s, step);
    if Actor(step) == None { OthersStopping(s, step); SignalRequests(s, step); }
    else if Transaction(step) { TransactionKeeps(s, step); }
    else { WorkerKeeps(s, step); }
  }

  lemma SignalRequests(s: State, step: Step)
    requires Enabled(s, step) && (step.Redeliver? || step.Stop?)
    ensures Do(s, step).requests == s.requests
  {
  }

  /** What is left of the question once the others are known to stay as they are. */
  lemma ReducesTo(s: State, step: Step, w: nat, job: Uuid)
    requires Enabled(s, step) && (Actor(step) == Some(w) || step == Redeliver(w) || step == Stop(w))
    ensures var t := Do(s, step);
            Forgotten(t, job) <==>
              && IsQueued(t.db.jobs, job) && job !in t.broker.ready && OwnSpent(t, w, job)
              && OthersSpent(s, w, job) && NoPublisher(s, job)
  {
    hide Do, Enabled, OwnSpent, OthersSpent, NoPublisher, Forgotten, Elsewhere;
    WorkerElsewhere(s, step, w);
    OthersKept(s, Do(s, step), w, job);
    ForgottenIs(Do(s, step), w, job);
  }

  lemma ForgetsChecking(s: State, step: Step, job: Uuid)
    requires Inv(s) && Enabled(s, step) && !Forgotten(s, job)
    requires step.ReadStatus? || step.SessionFails? || step.ClaimError?
    ensures Forgotten(Do(s, step), job) <==> Forgets(s, step, job)
  {
    hide Inv, Forgotten, OthersSpent, NoPublisher;
    ForgottenIs(s, step.w, job);
    ReducesTo(s, step, step.w, job);
  }

  lemma ForgetsProcessing(s: State, step: Step, job: Uuid)
    requires Inv(s) && Enabled(s, step) && !Forgotten(s, job)
    requires step.SettleRaises? || step.Raise? || step.Parse?
    ensures Forgotten(Do(s, step), job) <==> Forgets(s, step, job)
  {
    hide Forgotten, OthersSpent, NoPublisher, Shapes, Claims, Linked, Known, Awake, Documents, Pure, Artifacts,
         IndexHolds;
    JobKnown(s, step.w);
    ForgottenIs(s, step.w, job);
    ReducesTo(s, step, step.w, job);
  }

  lemma ForgetsBroker(s: State, step: Step, job: Uuid)
    requires Inv(s) && Enabled(s, step) && !Forgotten(s, job)
    requires step.Deliver? || step.Nack? || step.Start?
    ensures Forgotten(Do(s, step), job) <==> Forgets(s, step, job)
  {
    hide Forgotten, OthersSpent, NoPublisher, Shapes, Claims, Known, Awake, Documents, Pure, Artifacts, IndexHolds;
    ForgottenIs(s, step.w, job);
    ReducesTo(s, step, step.w, job);
  }

  lemma ForgetsSettle(s: State, step: Step, job: Uuid)
    requires Inv(s) && Enabled(s, step) && !Forgotten(s, job) && step.Settle?
    ensures Forgotten(Do(s, step), job) <==> Forgets(s, step, job)
  {
    hide Forgotten, OthersSpent, NoPublisher, Shapes, Claims, Linked, Known, Awake, Documents, Pure, Artifacts,
         IndexHolds;
    JobKnown(s, step.w);
    ForgottenIs(s, step.w, job);
    ReducesTo(s, step, step.w, job);
  }

  lemma ForgetsLeaving(s: State, step: Step, job: Uuid)
    requires Inv(s) && Enabled(s, step) && !Forgotten(s, job)
    requires step.Begin? || step.Exit? || step.Redeliver?
    ensures Forgotten(Do(s, step), job) <==> Forgets(s, step, job)
  {
    hide Forgotten, OthersSpent, NoPublisher, Shapes, Claims, Known, Awake, Documents, Pure, Artifacts, IndexHolds;
    ForgottenIs(s, step.w, job);
    ReducesTo(s, step, step.w, job);
  }

  lemma ForgetsDying(s: State, step: Step, job: Uuid)
    requires Inv(s) && Enabled(s, step) && !Forgotten(s, job)
    requires step.Die? || step.Stop?
    ensures Forgotten(Do(s, step), job) <==> Forgets(s, step, job)
  {
    hide Forgotten, OthersSpent, NoPublisher, Shapes, Claims, Known, Awake, Documents, Pure, Artifacts, IndexHolds;
    ForgottenIs(s, step.w, job);
    ReducesTo(s, step, step.w, job);
  }

  lemma ForgetsStoring(s: State, step: Step, job: Uuid)
    requires Inv(s) && Enabled(s, step) && !Forgotten(s, job)
    requires step.Fetch? || step.Store?
    ensures Forgotten(Do(s, step), job) <==> Forgets(s, step, job)
  {
    hide Forgotten, OthersSpent, NoPublisher, Shapes, Claims, Linked, Known, Awake, Documents, Pure, Artifacts,
         IndexHolds, Put;
    JobKnown(s, step.w);
    ForgottenIs(s, step.w, job);
    ReducesTo(s, step, step.w, job);
  }

  lemma ForgetsReenqueue(s: State, step: Step, job: Uuid)
    requires Inv(s) && Enabled(s, step) && !Forgotten(s, job) && step.Reenqueue?
    ensures Forgotten(Do(s, step), job) <==> Forgets(s, step, job)
  {
    hide Forgotten, OthersSpent, NoPublisher, Inv;
    ForgottenIs(s, step.w, job);
    ReducesTo(s, step, step.w, job);
  }

  // ------------------------------------------------------------------ transactions

  lemma ClaimAfter(s: State, w: nat, commit: Commit)
    requires IndexHolds(s.db.jobs) && BusyAt(s.workers, w) && s.workers[w].stage.Checked?
    ensures var t, own := DoClaim(s, w, commit), s.workers[w].job;
            && t.broker == s.broker && t.stopping == s.stopping && BusyAt(t.workers, w) && t.workers[w].job == own
            && !t.workers[w].stage.Delivered? && !t.workers[w].stage.Nacking?
            && (t.workers[w].stage.Raised? <==> IsQueued(s.db.jobs, own) && !commit.Acknowledged?)
            && (if IsQueued(s.db.jobs, own) && commit != Unacknowledged(false) then
                  t.db.jobs == s.db.jobs[own := Stamp(s.db.jobs[own], Status.Started, None, s.clock)]
                else
                  t.db.jobs == s.db.jobs && t.workers[w].stage == if IsQueued(s.db.jobs, own) then Raised else Dropping)
  {
    var own := s.workers[w].job;
    if IsQueued(s.db.jobs, own) {
      UpdateKeepsIndex(s.db.jobs, own, Status.Started, Status.Queued, None, s.clock);
    }
    hide IndexHolds, Clash;
  }

  lemma ForgetsClaim(s: State, step: Step, job: Uuid)
    requires Inv(s) && Enabled(s, step) && !Forgotten(s, job) && step.Claim?
    ensures Forgotten(Do(s, step), job) <==> Forgets(s, step, job)
  {
    hide Forgotten, OthersSpent, NoPublisher, Shapes, Claims, Linked, Known, Awake, Documents, Pure, Artifacts,
         IndexHolds, DoClaim;
    JobKnown(s, step.w);
    ClaimAfter(s, step.w, step.commit);
    ForgottenIs(s, step.w, job);
    ReducesTo(s, step, step.w, job);
  }

  lemma ForgetsComplete(s: State, step: Step, job: Uuid)
    requires Inv(s) && Enabled(s, step) && !Forgotten(s, job) && step.Complete?
    ensures Forgotten(Do(s, step), job) <==> Forgets(s, step, job)
  {
    hide Forgotten, OthersSpent, NoPublisher, Shapes, Claims, Linked, Known, Awake, Documents, Pure, Artifacts,
         IndexHolds, UpsertArtifact;
    JobKnown(s, step.w);
    ForgottenIs(s, step.w, job);
    ReducesTo(s, step, step.w, job);
  }

  lemma ResolveAfter(s: State, w: nat, error: string, commit: Commit)
    requires IndexHolds(s.db.jobs) && BusyAt(s.workers, w) && s.workers[w].stage.Failing?
    ensures var t, own, status := DoResolve(s, w, error, commit), s.workers[w].job, FailureStatus(s.workers[w].stage.run);
            && t.broker == s.broker && t.stopping == s.stopping && BusyAt(t.workers, w) && t.workers[w].job == own
            && (if IsStarted(s.db.jobs, own) && commit != Unacknowledged(false) then
                  && t.db.jobs == s.db.jobs[own := Stamp(s.db.jobs[own], status, Some(error), s.clock)]
                  && t.workers[w].stage == (if !commit.Acknowledged? then Raised else if status.Queued? then Requeued else Settling(false))
                else
                  t.db.jobs == s.db.jobs)
  {
    var own := s.workers[w].job;
    if IsStarted(s.db.jobs, own) {
      UpdateKeepsIndex(s.db.jobs, own, FailureStatus(s.workers[w].stage.run), Status.Started, Some(error), s.clock);
    }
    hide IndexHolds, Clash, Stamp, FailureStatus;
  }

  lemma ForgetsResolve(s: State, step: Step, job: Uuid)
    requires Inv(s) && Enabled(s, step) && !Forgotten(s, job) && step.Resolve?
    ensures Forgotten(Do(s, step), job) <==> Forgets(s, step, job)
  {
    hide Forgotten, OthersSpent, NoPublisher, Shapes, Claims, Linked, Known, Awake, Documents, Pure, Artifacts,
         IndexHolds, DoResolve;
    JobKnown(s, step.w);
    ResolveAfter(s, step.w, step.error, step.commit);
    ForgottenIs(s, step.w, job);
    ReducesTo(s, step, step.w, job);
  }

  // ---------------------------------------------------------------------- requests

  lemma ForgetsRequest(s: State, step: Step, job: Uuid)
    requires Enabled(s, step) && !Forgotten(s, job)
    requires step.Publish? || step.CheckDepth? || step.Submit? || step.Abandon?
    ensures Forgotten(Do(s, step), job) <==> Forgets(s, step, job)
  {
    var r, t := step.r, Do(s, step);
    assert forall q: nat :: q != r ==> (PublishesAt(t.requests, q, job) <==> PublishesAt(s.requests, q, job));
    assert !PublishesAt(t.requests, r, job);
  }

  /** Nobody can know a row that is not there yet. */
  lemma UnknownJob(s: State, job: Uuid)
    requires Inv(s) && job !in s.db.jobs
    ensures job !in s.broker.ready && NoPublisher(s, job)
    ensures forall w :: w in s.workers && s.workers[w].Busy? ==> s.workers[w].job != job
  {
    hide Shapes, Owned, Exclusive, Linked, Awake, Documents, Pure, Artifacts, IndexHolds;
  }

  lemma InsertAfter(s: State, r: nat, id: Uuid, commit: Commit, job: Uuid)
    requires r in s.requests && s.requests[r].Admitted?
    ensures var t := DoInsert(s, r, id, commit);
            && t.broker == s.broker && t.workers == s.workers && t.stopping == s.stopping
            && (IsQueued(t.db.jobs, job) <==>
                  IsQueued(s.db.jobs, job) || (job == id && Insertable(s, r, id) && commit != Unacknowledged(false)))
            && (forall q: nat :: PublishesAt(t.requests, q, job) <==>
                  PublishesAt(s.requests, q, job) || (q == r && job == id && Insertable(s, r, id) && commit.Acknowledged?))
            && (Insertable(s, r, id) ==> id !in s.db.jobs)
  {
    hide Clash;
  }

  lemma ForgetsInsert(s: State, step: Step, job: Uuid)
    requires Inv(s) && Enabled(s, step) && !Forgotten(s, job) && step.Insert?
    ensures Forgotten(Do(s, step), job) <==> Forgets(s, step, job)
  {
    hide Inv, InsertJob, DoInsert, Insertable;
    InsertAfter(s, step.r, step.job, step.commit, job);
    if job !in s.db.jobs {
      UnknownJob(s, job);
      if step.commit.Acknowledged? && job == step.job && Insertable(s, step.r, job) {
        assert PublishesAt(Do(s, step).requests, step.r, job);
      }
    }
  }

  lemma ForgetsClient(s: State, step: Step, job: Uuid)
    requires Enabled(s, step) && !Forgotten(s, job)
    requires step.Register? || step.Upload?
    ensures Forgotten(Do(s, step), job) <==> Forgets(s, step, job)
  {
    hide InsertDocument, Put;
  }

  // --------------------------------------------------------------------- every step

  /** A step leaves a row forgotten that was not forgotten before if and only if it is one of those events. */
  lemma ForgettingStep(s: State, step: Step, job: Uuid)
    requires Inv(s) && Enabled(s, step) && !Forgotten(s, job)
    ensures Forgotten(Do(s, step), job) <==> Forgets(s, step, job)
  {
    hide Inv, Do, Enabled, Forgotten, Forgets;
    match step
    case Register(_, _) => ForgetsClient(s, step, job);
    case Upload(_, _) => ForgetsClient(s, step, job);
    case Submit(_, _, _) => ForgetsRequest(s, step, job);
    case Start(_) => ForgetsBroker(s, step, job);
    case Stop(_) => ForgetsDying(s, step, job);
    case CheckDepth(_, _) => ForgetsRequest(s, step, job);
    case Insert(_, _, _) => ForgetsInsert(s, step, job);
    case Publish(_) => ForgetsRequest(s, step, job);
    case Abandon(_) => ForgetsRequest(s, step, job);
    case Deliver(_, _) => ForgetsBroker(s, step, job);
    case Begin(_) => ForgetsLeaving(s, step, job);
    case ReadStatus(_) => ForgetsChecking(s, step, job);
    case SessionFails(_) => ForgetsChecking(s, step, job);
    case Claim(_, _) => ForgetsClaim(s, step, job);
    case ClaimError(_) => ForgetsChecking(s, step, job);
    case Settle(_) => ForgetsSettle(s, step, job);
    case SettleRaises(_) => ForgetsProcessing(s, step, job);
    case Nack(_) => ForgetsBroker(s, step, job);
    case Fetch(_) => ForgetsStoring(s, step, job);
    case Parse(_) => ForgetsProcessing(s, step, job);
    case Store(_) => ForgetsStoring(s, step, job);
    case Complete(_, _, _) => ForgetsComplete(s, step, job);
    case Raise(_) => ForgetsProcessing(s, step, job);
    case Resolve(_, _, _) => ForgetsResolve(s, step, job);
    case Reenqueue(_, _) => ForgetsReenqueue(s, step, job);
    case Exit(_) => ForgetsLeaving(s, step, job);
    case Die(_) => ForgetsDying(s, step, job);
    case Redeliver(_) => ForgetsLeaving(s, step, job);
  }

  // --------------------------------------------------------------------- whole runs

  /** Event `i` of the run from `s` forgets the job. */
  ghost predicate ForgetsAt(s: State, es: seq<Event>, i: nat, job: Uuid)
  {
    i < |es| && Run(s, es[..i]) && Forgets(After(s, es[..i]), es[i].step, job)
  }

  lemma ForgetsLater(s: State, now: nat, step: Step, job: Uuid)
    ensures Forgets(s.(clock := now), step, job) == Forgets(s, step, job)
    ensures Forgotten(s.(clock := now), job) == Forgotten(s, job)
  {
    if step.Insert? && step.r in s.requests && s.requests[step.r].Admitted? {
      var account, doc := s.requests[step.r].account, s.requests[step.r].doc;
      InsertAnytime(s.db, job, account, doc, s.cfg.maxAttempts, s.clock, now);
    }
    hide InsertJob;
  }

  lemma ForgettingApply(s: State, e: Event, job: Uuid)
    requires Inv(s) && CanHappen(s, e)
    ensures Forgotten(Apply(s, e), job) <==> Forgotten(s, job) || Forgets(s, e.step, job)
  {
    hide Inv, Do, Enabled, Forgotten, Forgets;
    var p := s.(clock := e.now);
    InvLater(s, e.now);
    EnabledLater(s, e.now, e.step);
    ForgetsLater(s, e.now, e.step, job);
    if Forgotten(p, job) { ForgottenStep(p, e.step, job); } else { ForgettingStep(p, e.step, job); }
  }

  /** Over any run from a state where the job is not forgotten: it is forgotten at the end if and only if one of those
      events happened to it on the way. */
  lemma {:induction false} ForgottenByEvent(s: State, es: seq<Event>, job: Uuid)
    requires Inv(s) && Run(s, es) && !Forgotten(s, job)
    ensures Forgotten(After(s, es), job) <==> exists i :: ForgetsAt(s, es, i, job)
  {
    hide Inv, Apply, CanHappen, Forgotten, Forgets;
    if es != [] {
      var past := Front(es);
      ForgottenByEvent(s, past, job);
      InvRun(s, past);
      ForgettingApply(After(s, past), es[|es| - 1], job);
      if i: nat :| ForgetsAt(s, past, i, job) {
        assert es[..i] == past[..i] && ForgetsAt(s, es, i, job);
      } else {
        LastForgets(s, es, job);
      }
    }
  }

  lemma LastForgets(s: State, es: seq<Event>, job: Uuid)
    requires Run(s, es) && es != []
    requires forall i :: !ForgetsAt(s, Front(es), i, job)
    ensures (exists i :: ForgetsAt(s, es, i, job)) <==> Forgets(After(s, Front(es)), es[|es| - 1].step, job)
  {
    hide Forgets, CanHappen, Apply;
    if Forgets(After(s, Front(es)), es[|es| - 1].step, job) {
      assert ForgetsAt(s, es, |es| - 1, job);
    }
    forall i: nat | i < |Front(es)|
      ensures ForgetsAt(s, es, i, job) == ForgetsAt(s, Front(es), i, job)
    {
      assert es[..i] == Front(es)[..i];
    }
  }

  /** Over the life of the system: a row can never be claimed again, although it is QUEUED, if and only if one of those
      events happened to it. */
  lemma UnclaimableByEvent(cfg: Config, es: seq<Event>, job: Uuid)
    requires Valid(cfg) && Run(Initial(cfg), es)
    requires IsQueued(After(Initial(cfg), es).db.jobs, job)
    ensures !Recovery.Claimable(After(Initial(cfg), es), job) <==> exists i :: ForgetsAt(Initial(cfg), es, i, job)
  {
    hide Inv, ForgetsAt, Recovery.Claimable;
    InitialInv(cfg);
    InvRun(Initial(cfg), es);
    assert !Forgotten(Initial(cfg), job);
    hide Forgotten;
    ForgottenByEvent(Initial(cfg), es, job);
    Recovery.ClaimableUnlessForgotten(After(Initial(cfg), es), job);
  }
}
