/** No message appears or disappears except by an enqueue and an ack. */
module Conservation {
  import opened Keys
  import opened Protocol
  import opened Frames
  import opened Invariants
  import opened Lifecycle

  datatype Tally = Tally(published: nat, taken: nat, acked: nat, returned: nat)

  /** What one step adds to the tally; settling a message that was taken back counts for nothing. */
  function Counted(b: Broker, traffic: Traffic, t: Tally): (u: Tally)
  {
    match traffic
    case Quiet => t
    case Published(_) => t.(published := t.published + 1)
    case Taken(_, _) => t.(taken := t.taken + 1)
    case Settled(w) => if w in b.unacked then t.(acked := t.acked + 1) else t
    case GivenBack(w) => if w in b.unacked then t.(returned := t.returned + 1) else t
  }

  ghost function TallyOf(s: State, es: seq<Event>): (t: Tally)
    requires Run(s, es)
  {
    if es == [] then Tally(0, 0, 0, 0)
    else
      var p := After(s, Front(es));
      Counted(p.broker, TrafficOf(p, es[|es| - 1].step), TallyOf(s, Front(es)))
  }

  ghost predicate Balanced(b: Broker, t: Tally)
  {
    && t.published == t.acked + |b.ready| + |b.unacked|
    && t.taken == t.acked + t.returned + |b.unacked|
  }

  lemma Dropped(m: map<nat, Uuid>, w: nat)
    ensures |m - {w}| == |m| - if w in m then 1 else 0
  {
    assert (m - {w}).Keys == m.Keys - {w};
    assert |m.Keys - {w}| == |m.Keys| - if w in m then 1 else 0;
  }

  lemma Added(m: map<nat, Uuid>, w: nat, job: Uuid)
    requires w !in m
    ensures |m[w := job]| == |m| + 1
  {
    assert m[w := job].Keys == m.Keys + {w};
  }

  lemma BalancedStep(s: State, step: Step, t: Tally)
    requires Enabled(s, step) && Balanced(s.broker, t)
    ensures Balanced(Do(s, step).broker, Counted(s.broker, TrafficOf(s, step), t))
  {
    hide Do, Enabled, TrafficOf;
    BrokerStep(s, step);
    match TrafficOf(s, step)
    case Quiet =>
    case Published(_) =>
    case Taken(w, job) => TakenFresh(s, step); Added(s.broker.unacked, w, job);
    case Settled(w) => Dropped(s.broker.unacked, w);
    case GivenBack(w) => Dropped(s.broker.unacked, w);
  }

  lemma TakenFresh(s: State, step: Step)
    requires Enabled(s, step) && TrafficOf(s, step).Taken?
    ensures TrafficOf(s, step).w !in s.broker.unacked && TrafficOf(s, step).job in s.broker.ready
  {
  }

  /** In every run the published messages are as many as those acked, ready and held, and the deliveries as many as those
      acked, given back and held. */
  lemma {:induction false} MessagesAreConserved(cfg: Config, es: seq<Event>)
    requires Run(Initial(cfg), es)
    ensures Balanced(After(Initial(cfg), es).broker, TallyOf(Initial(cfg), es))
  {
    hide Do, Enabled, TrafficOf, Counted, Balanced;
    if es == [] {
      EmptyBalance();
    } else {
      MessagesAreConserved(cfg, Front(es));
      var p, e := After(Initial(cfg), Front(es)), es[|es| - 1];
      EnabledLater(p, e.now, e.step);
      TrafficLater(p, e.now, e.step);
      BalancedStep(p.(clock := e.now), e.step, TallyOf(Initial(cfg), Front(es)));
    }
  }

  lemma EmptyBalance()
    ensures Balanced(Broker(multiset{}, map[]), Tally(0, 0, 0, 0))
  {
  }

  lemma TrafficLater(s: State, now: nat, step: Step)
    requires Enabled(s, step)
    ensures Enabled(s.(clock := now), step) && TrafficOf(s.(clock := now), step) == TrafficOf(s, step)
  {
  }

  // ------------------------------------------------------------------ one delivery

  /** Event `k` of the run ends what the consumer holds: an ack, or the message goes back. */
  ghost predicate Ends(s: State, es: seq<Event>, k: nat, w: nat)
  {
    && k < |es| && Run(s, es[..k])
    && (es[k].step == Settle(w) || (CanHappen(After(s, es[..k]), es[k])
                                    && TrafficOf(After(s, es[..k]), es[k].step) == GivenBack(w)))
  }

  lemma EndsPrefix(s: State, es: seq<Event>, i: nat, k: nat, w: nat)
    requires k < i <= |es|
    ensures Ends(s, es[..i], k, w) == Ends(s, es, k, w)
  {
    assert es[..i][..k] == es[..k];
  }

  lemma KeepsHolding(s: State, step: Step, w: nat)
    requires Enabled(s, step) && w in s.broker.unacked
    requires step != Settle(w) && TrafficOf(s, step) != GivenBack(w)
    ensures w in Do(s, step).broker.unacked && Do(s, step).broker.unacked[w] == s.broker.unacked[w]
  {
    hide Do, Enabled;
    BrokerStep(s, step);
    if TrafficOf(s, step).Taken? { TakenFresh(s, step); }
  }

  lemma StopsHolding(s: State, step: Step, w: nat)
    requires Enabled(s, step) && w in s.broker.unacked
    requires step == Settle(w) || TrafficOf(s, step) == GivenBack(w)
    ensures var b, c := s.broker, Do(s, step).broker;
            && w !in c.unacked
            && c.ready == if step == Settle(w) then b.ready else b.ready + multiset{b.unacked[w]}
  {
    hide Do, Enabled;
    BrokerStep(s, step);
  }

  lemma Delivers(s: State, w: nat, job: Uuid)
    requires Enabled(s, Deliver(w, job))
    ensures w in Do(s, Deliver(w, job)).broker.unacked && Do(s, Deliver(w, job)).broker.unacked[w] == job
  {
  }

  /** Until one of those events the consumer holds exactly that message. */
  lemma {:induction false} HeldUntilEnded(s: State, es: seq<Event>, i: nat, w: nat, job: Uuid)
    requires Run(s, es) && i < |es| && es[i].step == Deliver(w, job)
    requires forall k :: i < k < |es| ==> !Ends(s, es, k, w)
    ensures w in After(s, es).broker.unacked && After(s, es).broker.unacked[w] == job
  {
    hide Do, Enabled, TrafficOf;
    var p, e := After(s, Front(es)), es[|es| - 1];
    var q := p.(clock := e.now);
    EnabledLater(p, e.now, e.step);
    if i == |es| - 1 {
      Delivers(q, w, job);
    } else {
      forall k | i < k < |Front(es)| ensures !Ends(s, Front(es), k, w) {
        EndsPrefix(s, es, |es| - 1, k, w);
      }
      HeldUntilEnded(s, Front(es), i, w, job);
      TrafficLater(p, e.now, e.step);
      assert !Ends(s, es, |es| - 1, w);
      KeepsHolding(q, e.step, w);
    }
  }

  /** Each delivery of a run, by itself: the consumer holds it until the first event that acks it or gives it back, and
      that event ends it for good; the ack removes the message, the return makes it ready again.  Without such an event
      it is still held at the end (`k` is then the length of the run). */
  lemma DeliveryEndsOnce(s: State, es: seq<Event>, i: nat, w: nat, job: Uuid) returns (k: nat)
    requires Run(s, es) && i < |es| && es[i].step == Deliver(w, job)
    ensures i < k <= |es| && Run(s, es[..k])
    ensures forall m :: i < m < k ==> !Ends(s, es, m, w)
    ensures var b := After(s, es[..k]).broker; w in b.unacked && b.unacked[w] == job
    ensures k < |es| ==>
              && Ends(s, es, k, w) && Run(s, es[..k + 1])
              && var b, c := After(s, es[..k]).broker, After(s, es[..k + 1]).broker;
                 w !in c.unacked && c.ready == if es[k].step == Settle(w) then b.ready else b.ready + multiset{job}
  {
    hide Do, Enabled, TrafficOf, Ends;
    k := i + 1;
    while k < |es| && !Ends(s, es, k, w)
      invariant i < k <= |es|
      invariant forall m :: i < m < k ==> !Ends(s, es, m, w)
    {
      k := k + 1;
    }
    RunPrefix(s, es, k);
    forall m | i < m < |es[..k]| ensures !Ends(s, es[..k], m, w) {
      EndsPrefix(s, es, k, m, w);
    }
    HeldUntilEnded(s, es[..k], i, w, job);
    if k < |es| {
      RunPrefix(s, es, k + 1);
      EndOf(s, es, k, w);
    }
  }

  lemma EndOf(s: State, es: seq<Event>, k: nat, w: nat)
    requires k < |es| && Run(s, es[..k]) && Run(s, es[..k + 1]) && Ends(s, es, k, w)
    requires w in After(s, es[..k]).broker.unacked
    ensures var b, c := After(s, es[..k]).broker, After(s, es[..k + 1]).broker;
            w !in c.unacked && c.ready == if es[k].step == Settle(w) then b.ready else b.ready + multiset{b.unacked[w]}
  {
    hide Do, Enabled, TrafficOf;
    var all := es[..k + 1];
    assert all[..|all| - 1] == es[..k] && all[|all| - 1] == es[k];
    var p, e := After(s, es[..k]), es[k];
    EnabledLater(p, e.now, e.step);
    TrafficLater(p, e.now, e.step);
    StopsHolding(p.(clock := e.now), e.step, w);
  }
}
