/** How the handling of one message ends: acked, given back, or left by an exception. */
module Episodes {
  import opened Wrappers
  import opened Keys
  import opened Schema
  import opened Protocol
  import opened Ownership
  import opened Wakeups
  import opened Contents
  import opened Frames
  import opened Invariants
  import opened Lifecycle
  import Accounting
  import Completion
  import Forgetting

  /** An exception leaves `_handle`.  A raising commit of the claim is one, although a raising claim UPDATE is not; so is
      a failure update that raises, or commits unseen, and a re-enqueue that raises anything but QueueException; so is a
      raising ack or nack, except the ack inside the `try`. */
  predicate Escapes(s: State, step: Step)
  {
    match step
    case SessionFails(_) => true
    case Claim(w, commit) => !commit.Acknowledged? && BusyAt(s.workers, w) && IsQueued(s.db.jobs, s.workers[w].job)
    case SettleRaises(w) => BusyAt(s.workers, w) && !s.workers[w].stage.Acking?
    case Resolve(w, _, commit) =>
      BusyAt(s.workers, w) && !commit.Acknowledged? && (commit.applied ==> IsStarted(s.db.jobs, s.workers[w].job))
    case Reenqueue(_, send) => send.Broken?
    case _ => false
  }

  /** Where one step leaves a worker that is handling a message. */
  ghost predicate Steps(s: State, t: State, step: Step, w: nat)
    requires BusyAt(s.workers, w)
  {
    var own := Actor(step) == Some(w);
    if BusyAt(t.workers, w) then
      && t.workers[w].job == s.workers[w].job && !t.workers[w].stage.Delivered?
      && (t.workers[w].stage.Raised? <==> s.workers[w].stage.Raised? || (own && Escapes(s, step)))
      && (own ==> !s.workers[w].stage.Raised? && (s.workers[w].stage.Nacking? ==> Escapes(s, step)))
      && (t.workers[w].stage.Nacking? <==> (s.workers[w].stage.Nacking? && !own) || step == ClaimError(w))
    else
      && own && (step.Settle? || step.Nack? || step.Exit? || step.Die?)
      && (step.Settle? ==> !s.workers[w].stage.Raised? && !s.workers[w].stage.Nacking?)
      && (step.Nack? ==> s.workers[w].stage.Nacking?)
      && (step.Exit? ==> s.workers[w].stage.Raised?)
  }

  lemma StepsHandling(s: State, step: Step, w: nat)
    requires Enabled(s, step) && BusyAt(s.workers, w) && !s.workers[w].stage.Delivered? && Actor(step) == Some(w)
    requires step.ReadStatus? || step.SessionFails? || step.ClaimError? || step.SettleRaises? || step.Raise? || step.Parse?
    ensures Steps(s, Do(s, step), step, w)
  {
  }

  lemma StepsLeaving(s: State, step: Step, w: nat)
    requires Enabled(s, step) && BusyAt(s.workers, w) && !s.workers[w].stage.Delivered? && Actor(step) == Some(w)
    requires step.Settle? || step.Nack? || step.Exit? || step.Die? || step.Begin? || step.Start? || step.Deliver?
    ensures Steps(s, Do(s, step), step, w)
  {
    hide Returned, Acked;
  }

  lemma StepsStoring(s: State, step: Step, w: nat)
    requires Enabled(s, step) && BusyAt(s.workers, w) && !s.workers[w].stage.Delivered? && Actor(step) == Some(w)
    requires step.Fetch? || step.Store? || step.Reenqueue?
    ensures Steps(s, Do(s, step), step, w)
  {
    hide Put, Enqueued, ArtifactKey;
  }

  lemma StepsClaim(s: State, step: Step, w: nat)
    requires IndexHolds(s.db.jobs) && Enabled(s, step) && step.Claim? && step.w == w
    ensures BusyAt(s.workers, w) && Steps(s, Do(s, step), step, w)
  {
    hide IndexHolds, DoClaim;
    Accounting.ClaimIs(s, step);
    Forgetting.ClaimAfter(s, w, step.commit);
  }

  lemma StepsComplete(s: State, step: Step, w: nat)
    requires Enabled(s, step) && step.Complete? && step.w == w
    ensures BusyAt(s.workers, w) && Steps(s, Do(s, step), step, w)
  {
    hide CompletedTables;
  }

  lemma StepsResolve(s: State, step: Step, w: nat)
    requires IndexHolds(s.db.jobs) && Enabled(s, step) && step.Resolve? && step.w == w
    ensures BusyAt(s.workers, w) && Steps(s, Do(s, step), step, w)
  {
    Completion.ResolveIs(s, step);
    var own := s.workers[w].job;
    if IsStarted(s.db.jobs, own) {
      UpdateKeepsIndex(s.db.jobs, own, FailureStatus(s.workers[w].stage.run), Status.Started, Some(step.error), s.clock);
    }
    hide IndexHolds, Clash, Stamp, FailureStatus;
  }

  lemma StepOf(s: State, step: Step, w: nat)
    requires Inv(s) && Enabled(s, step) && BusyAt(s.workers, w) && !s.workers[w].stage.Delivered?
    ensures Steps(s, Do(s, step), step, w)
  {
    hide Do, Enabled, Shapes, Claims, Linked, Known, Awake, Documents, Pure, Artifacts, IndexHolds, Escapes;
    if Actor(step) != Some(w) {
      TasksFrame(s, step);
    } else {
      match step
      case Claim(_, _) => StepsClaim(s, step, w);
      case Complete(_, _, _) => StepsComplete(s, step, w);
      case Resolve(_, _, _) => StepsResolve(s, step, w);
      case Fetch(_) => StepsStoring(s, step, w);
      case Store(_) => StepsStoring(s, step, w);
      case Reenqueue(_, _) => StepsStoring(s, step, w);
      case ReadStatus(_) => StepsHandling(s, step, w);
      case SessionFails(_) => StepsHandling(s, step, w);
      case ClaimError(_) => StepsHandling(s, step, w);
      case SettleRaises(_) => StepsHandling(s, step, w);
      case Raise(_) => StepsHandling(s, step, w);
      case Parse(_) => StepsHandling(s, step, w);
      case _ => StepsLeaving(s, step, w);
    }
  }

  // ------------------------------------------------------------------- whole runs

  /** The worker is busy all along the run. */
  ghost predicate During(s: State, es: seq<Event>, w: nat)
    requires Run(s, es)
  {
    BusyAt(After(s, es).workers, w) && (es != [] ==> During(s, Front(es), w))
  }

  /** An exception left the worker's `_handle` somewhere along the run. */
  ghost predicate Escaped(s: State, es: seq<Event>, w: nat)
    requires Run(s, es)
  {
    && es != []
    && (Escaped(s, Front(es), w) || (Actor(es[|es| - 1].step) == Some(w) && Escapes(After(s, Front(es)), es[|es| - 1].step)))
  }

  /** The worker's claim UPDATE raised somewhere along the run. */
  predicate ClaimRaised(es: seq<Event>, w: nat)
  {
    exists i :: 0 <= i < |es| && es[i].step == ClaimError(w)
  }

  lemma EscapesLater(s: State, now: nat, step: Step)
    ensures Escapes(s.(clock := now), step) == Escapes(s, step)
  {
  }

  lemma StepsApply(s: State, e: Event, w: nat)
    requires Inv(s) && CanHappen(s, e) && BusyAt(s.workers, w) && !s.workers[w].stage.Delivered?
    ensures Steps(s, Apply(s, e), e.step, w)
  {
    hide Inv, Do, Enabled, Escapes;
    InvLater(s, e.now);
    EnabledLater(s, e.now, e.step);
    EscapesLater(s, e.now, e.step);
    StepOf(s.(clock := e.now), e.step, w);
  }

  /** While a message is handled, the stage tells whether an exception has left `_handle` and whether the claim UPDATE
      raised. */
  lemma {:induction false} EpisodeStage(s: State, es: seq<Event>, w: nat)
    requires Inv(s) && Run(s, es) && During(s, es, w)
    requires BusyAt(s.workers, w) && !s.workers[w].stage.Delivered? && !s.workers[w].stage.Raised? && !s.workers[w].stage.Nacking?
    ensures var task := After(s, es).workers[w];
            && task.job == s.workers[w].job && !task.stage.Delivered?
            && (task.stage.Raised? <==> Escaped(s, es, w))
            && (task.stage.Nacking? <==> ClaimRaised(es, w) && !Escaped(s, es, w))
  {
    hide Inv, CanHappen, Apply, Escapes;
    if es != [] {
      EpisodeStage(s, Front(es), w);
      InvRun(s, Front(es));
      StepsApply(After(s, Front(es)), es[|es| - 1], w);
      RaisedEarlier(es, w);
    }
  }

  lemma RaisedEarlier(es: seq<Event>, w: nat)
    requires es != []
    ensures ClaimRaised(es, w) <==> ClaimRaised(Front(es), w) || es[|es| - 1].step == ClaimError(w)
  {
    if i :| 0 <= i < |Front(es)| && Front(es)[i].step == ClaimError(w) {
      assert es[i].step == ClaimError(w);
    }
    if es[|es| - 1].step == ClaimError(w) { assert 0 <= |es| - 1 < |es|; }
    forall i | 0 <= i < |es| && es[i].step == ClaimError(w) && i < |es| - 1
      ensures ClaimRaised(Front(es), w)
    {
      assert Front(es)[i].step == ClaimError(w);
    }
  }

  /** However the rest of the system interleaves, unless the worker dies: the message is acked if and only if no
      exception left `_handle` and the claim UPDATE did not raise; it is nacked if and only if the claim UPDATE raised and
      no exception left `_handle`; and the worker ends without settling it if and only if one did. */
  lemma HandlingEnds(s: State, es: seq<Event>, w: nat)
    requires Inv(s) && Run(s, es) && es != [] && During(s, Front(es), w) && !BusyAt(After(s, es).workers, w)
    requires BusyAt(s.workers, w) && !s.workers[w].stage.Delivered? && !s.workers[w].stage.Raised? && !s.workers[w].stage.Nacking?
    ensures var end, past := es[|es| - 1].step, Front(es);
            && end in {Settle(w), Nack(w), Exit(w), Die(w)}
            && (end != Die(w) ==>
                  && (end == Settle(w) <==> !Escaped(s, past, w) && !ClaimRaised(past, w))
                  && (end == Nack(w) <==> !Escaped(s, past, w) && ClaimRaised(past, w))
                  && (end == Exit(w) <==> Escaped(s, past, w)))
  {
    hide Inv, CanHappen, Apply, Escapes, Escaped, ClaimRaised;
    EpisodeStage(s, Front(es), w);
    InvRun(s, Front(es));
    StepsApply(After(s, Front(es)), es[|es| - 1], w);
  }
}
