/** `request_stop`: the worker finishes what it handles and handles nothing more. */
module Stopping {
  import opened Wrappers
  import opened Schema
  import opened Protocol
  import opened Ownership
  import opened Wakeups
  import opened Contents
  import opened Frames
  import opened Invariants
  import opened Lifecycle
  import Permanence

  /** `_handle` runs for the task's message. */
  predicate Handling(task: Task)
  {
    task.Busy? && !task.stage.Delivered?
  }

  /** After `request_stop` the next delivery takes the worker out of the loop, and the message goes back to the queue. */
  lemma StoppedWorkerTakesNothing(s: State, w: nat)
    requires Reachable(s) && w in s.stopping && BusyAt(s.workers, w) && s.workers[w].stage.Delivered?
    ensures var t := DoBegin(s, w);
            && w !in t.workers && w !in t.broker.unacked && t.db == s.db && t.objects == s.objects
            && (w in s.broker.unacked ==> t.broker.ready == s.broker.ready + multiset{s.workers[w].job})
  {
    hide Shapes, Claims, Known, Awake, Documents, Pure, Artifacts, IndexHolds;
    InvReachable(s);
  }

  lemma TransactionTask(s: State, step: Step)
    requires Enabled(s, step) && Transaction(step)
    ensures BusyAt(s.workers, step.w) && Handling(s.workers[step.w])
    ensures BusyAt(Do(s, step).workers, step.w) && Do(s, step).workers[step.w].job == s.workers[step.w].job
  {
    hide DoClaim, DoComplete, DoResolve;
    match step
    case Claim(w, commit) => ClaimJob(s, w, commit);
    case Complete(w, a, commit) => CompleteJob(s, w, a, commit);
    case Resolve(w, error, commit) => ResolveJob(s, w, error, commit);
  }

  /** A stopping worker's own step never makes it handle a message it did not handle before. */
  lemma OwnTask(s: State, step: Step, w: nat)
    requires Enabled(s, step) && Actor(step) == Some(w) && !Transaction(step) && w in s.workers && w in s.stopping
    requires w in Do(s, step).workers && Handling(Do(s, step).workers[w])
    ensures Handling(s.workers[w]) && Do(s, step).workers[w].job == s.workers[w].job
  {
    hide Put, Enqueued, Returned, Acked;
  }

  lemma StoppingStep(s: State, step: Step, w: nat)
    requires Enabled(s, step) && w in s.workers && w in s.stopping && w in Do(s, step).workers
    ensures w in Do(s, step).stopping
    ensures Handling(Do(s, step).workers[w]) ==>
              Handling(s.workers[w]) && Do(s, step).workers[w].job == s.workers[w].job
  {
    hide Do, Enabled;
    Permanence.StoppingStays(s, step, w);
    TasksFrame(s, step);
    if Actor(step) == Some(w) {
      if Transaction(step) {
        TransactionTask(s, step);
      } else if Handling(Do(s, step).workers[w]) {
        OwnTask(s, step, w);
      }
    }
  }

  /** Over any run after `request_stop`, until the process starts anew, the worker stays stopping, and whatever message
      it handles is the one it was handling when it was told to stop. */
  lemma {:induction false} StoppingFinishesOnly(s: State, es: seq<Event>, w: nat)
    requires Inv(s) && Run(s, es) && w in s.workers && w in s.stopping
    requires forall i :: 0 <= i < |es| ==> es[i].step != Start(w)
    ensures var t := After(s, es);
            w in t.workers ==>
              && w in t.stopping
              && (Handling(t.workers[w]) ==> Handling(s.workers[w]) && t.workers[w].job == s.workers[w].job)
  {
    hide Inv, Do, Enabled, Handling;
    if es != [] && w in After(s, es).workers {
      StoppingFinishesOnly(s, Front(es), w);
      var p, e := After(s, Front(es)), es[|es| - 1];
      var q := p.(clock := e.now);
      EnabledLater(p, e.now, e.step);
      if e.step.Start? { OtherStarts(q, e.step, w); } else { MovesIn(q, e.step, w); }
      StoppingStep(q, e.step, w);
    }
  }

  lemma OtherStarts(s: State, step: Step, w: nat)
    requires Enabled(s, step) && step.Start? && step != Start(w) && w in Do(s, step).workers
    ensures w in s.workers
  {
  }
}
