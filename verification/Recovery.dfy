/** When a QUEUED job can still be processed: exactly when it is not forgotten. */
module Recovery {
  import opened Wrappers
  import opened Keys
  import opened Schema
  import opened Protocol
  import opened Ownership
  import opened Wakeups
  import opened Contents
  import opened Invariants
  import opened Permanence

  /** Some continuation claims the job. */
  ghost predicate Claimable(s: State, job: Uuid)
  {
    exists es :: Run(s, es) && IsStarted(After(s, es).db.jobs, job)
  }

  lemma {:induction false} RunPrepend(s: State, e: Event, es: seq<Event>)
    requires CanHappen(s, e) && Run(Apply(s, e), es)
    ensures Run(s, [e] + es) && After(s, [e] + es) == After(Apply(s, e), es)
  {
    hide CanHappen, Apply;
    if es == [] {
      assert [e][..0] == [];
      assert Run(s, []);
      assert [e] + es == [e];
    } else {
      RunPrepend(s, e, es[..|es| - 1]);
      var all := [e] + es;
      assert all[..|all| - 1] == [e] + es[..|es| - 1] && all[|all| - 1] == es[|es| - 1];
    }
  }

  /** One step towards the claim. */
  lemma Towards(s: State, step: Step, job: Uuid)
    requires Enabled(s, step) && Claimable(Do(s, step), job)
    ensures Claimable(s, job)
  {
    hide Enabled, Do;
    var e := Event(s.clock, step);
    assert s.(clock := e.now) == s;
    var es :| Run(Do(s, step), es) && IsStarted(After(Do(s, step), es).db.jobs, job);
    RunPrepend(s, e, es);
  }

  lemma CheckedClaims(s: State, w: nat, job: Uuid)
    requires IndexHolds(s.db.jobs) && IsQueued(s.db.jobs, job)
    requires w in s.workers && s.workers[w] == Busy(job, Checked)
    ensures Claimable(s, job)
  {
    var t := DoClaim(s, w, Acknowledged);
    UpdateKeepsIndex(s.db.jobs, job, Status.Started, Status.Queued, None, s.clock);
    assert IsStarted(t.db.jobs, job);
    assert Run(t, []) && After(t, []) == t;
    assert Claimable(t, job);
    Towards(s, Claim(w, Acknowledged), job);
  }

  lemma ReceivedClaims(s: State, w: nat, job: Uuid)
    requires IndexHolds(s.db.jobs) && IsQueued(s.db.jobs, job)
    requires w in s.workers && s.workers[w] == Busy(job, Received)
    ensures Claimable(s, job)
  {
    hide Claimable, IndexHolds;
    CheckedClaims(DoReadStatus(s, w), w, job);
    Towards(s, ReadStatus(w), job);
  }

  lemma DeliveredClaims(s: State, w: nat, job: Uuid)
    requires IndexHolds(s.db.jobs) && IsQueued(s.db.jobs, job)
    requires w in s.workers && s.workers[w] == Busy(job, Delivered) && w !in s.stopping
    ensures Claimable(s, job)
  {
    hide Claimable, IndexHolds;
    ReceivedClaims(DoBegin(s, w), w, job);
    Towards(s, Begin(w), job);
  }

  /** Every finite set of worker names leaves one unused. */
  lemma {:induction false} FreshName(names: set<nat>) returns (w: nat)
    ensures w !in names && forall x :: x in names ==> x < w
    decreases |names|
  {
    if names == {} {
      w := 0;
    } else {
      var x :| x in names;
      var v := FreshName(names - {x});
      w := if v > x then v else x + 1;
      assert forall y :: y in names ==> y == x || y in names - {x};
    }
  }

  lemma ReadyClaims(s: State, job: Uuid)
    requires IndexHolds(s.db.jobs) && IsQueued(s.db.jobs, job) && Linked(s.broker, s.workers)
    requires job in s.broker.ready
    ensures Claimable(s, job)
  {
    hide Claimable, IndexHolds;
    var w := FreshName(s.workers.Keys);
    assert w !in s.workers;
    var t := s.(workers := s.workers[w := Idle], stopping := s.stopping - {w});
    DeliveredClaims(DoDeliver(t, w, job), w, job);
    Towards(t, Deliver(w, job), job);
    Towards(s, Start(w), job);
  }

  /** A held message comes back when its worker dies. */
  lemma HeldClaims(s: State, w: nat, job: Uuid)
    requires IndexHolds(s.db.jobs) && IsQueued(s.db.jobs, job) && Linked(s.broker, s.workers)
    requires w in s.workers && s.workers[w].Busy? && s.workers[w].job == job && w in s.broker.unacked
    ensures Claimable(s, job)
  {
    hide Claimable, IndexHolds;
    ReadyClaims(DoDie(s, w), job);
    Towards(s, Die(w), job);
  }

  lemma RequeuedClaims(s: State, w: nat, job: Uuid)
    requires IndexHolds(s.db.jobs) && IsQueued(s.db.jobs, job) && Linked(s.broker, s.workers)
    requires w in s.workers && s.workers[w] == Busy(job, Requeued)
    ensures Claimable(s, job)
  {
    hide Claimable, IndexHolds;
    ReadyClaims(DoReenqueue(s, w, Sent), job);
    Towards(s, Reenqueue(w, Sent), job);
  }

  lemma InsertedClaims(s: State, r: nat, job: Uuid)
    requires IndexHolds(s.db.jobs) && IsQueued(s.db.jobs, job) && Linked(s.broker, s.workers)
    requires PublishesAt(s.requests, r, job)
    ensures Claimable(s, job)
  {
    hide Claimable, IndexHolds;
    ReadyClaims(DoPublish(s, r), job);
    Towards(s, Publish(r), job);
  }

  /** A worker with an unspent task on a QUEUED row leads to a claim. */
  lemma UnspentClaims(s: State, w: nat, job: Uuid)
    requires Inv(s) && IsQueued(s.db.jobs, job)
    requires w in s.workers && s.workers[w].Busy? && s.workers[w].job == job
    requires !Spent(s.workers[w], w in s.broker.unacked, w in s.stopping)
    ensures Claimable(s, job)
  {
    hide Claimable, Claims, Linked, Known, Awake, Documents, Pure, Artifacts, IndexHolds, Shapes;
    JobKnown(s, w);
    if w in s.broker.unacked { HeldClaims(s, w, job); }
    else if s.workers[w].stage.Delivered? { DeliveredClaims(s, w, job); }
    else if s.workers[w].stage.Received? { ReceivedClaims(s, w, job); }
    else if s.workers[w].stage.Checked? { CheckedClaims(s, w, job); }
    else { RequeuedClaims(s, w, job); }
  }

  /** A QUEUED job can still be processed if and only if it is not forgotten: a message, a request, or a
      worker that can still act on it is all it takes, and without them nothing ever brings it back. */
  lemma ClaimableUnlessForgotten(s: State, job: Uuid)
    requires Inv(s) && IsQueued(s.db.jobs, job)
    ensures Claimable(s, job) <==> !Forgotten(s, job)
  {
    if Forgotten(s, job) {
      forall es | Run(s, es) ensures !IsStarted(After(s, es).db.jobs, job) {
        ForgottenForever(s, es, job);
      }
    } else {
      SomeoneActs(s, job);
    }
  }

  lemma SomeoneActs(s: State, job: Uuid)
    requires Inv(s) && IsQueued(s.db.jobs, job) && !Forgotten(s, job)
    ensures Claimable(s, job)
  {
    hide Claimable, Claims, Linked, Known, Awake, Documents, Pure, Artifacts, IndexHolds, Shapes;
    if job in s.broker.ready {
      ReadyClaims(s, job);
    } else if r :| PublishesAt(s.requests, r, job) {
      InsertedClaims(s, r, job);
    } else {
      var w :| w in s.workers && s.workers[w].Busy? && s.workers[w].job == job
               && !Spent(s.workers[w], w in s.broker.unacked, w in s.stopping);
      UnspentClaims(s, w, job);
    }
  }
}
