/** What the depth check promises about the queue although it is read before the job is inserted. */
module Backpressure {
  import opened Keys
  import opened Schema
  import opened Protocol
  import opened Ownership
  import opened Wakeups
  import opened Frames
  import opened Invariants
  import opened Lifecycle
  import Permanence

  /** Stages from which the worker may still publish its job. */
  predicate MayPublish(stage: Stage)
  {
    stage.Delivered? || stage.Received? || stage.Checked? || stage.Claimed? || stage.Fetched? || stage.Parsed?
    || stage.Stored? || stage.Acking? || stage.Failing? || stage.Requeued?
  }

  /** The worker can still put one message into the queue, its own or the one it holds, not counting a copy of a
      message it has already re-enqueued. */
  predicate Loads(task: Task, held: bool)
  {
    task.Busy? && (MayPublish(task.stage) || (held && task.stage != Settling(true)))
  }

  function Loaded(b: Broker, ws: Tasks): (names: set<nat>)
  {
    set w | w in ws && Loads(ws[w], w in b.unacked)
  }

  /** Requests past the depth check. */
  function InFlight(rs: Requests): (names: set<nat>)
  {
    set r | r in rs && !rs[r].Validated?
  }

  /** Messages in the queue, and all that may still arrive there without a new admission or a duplication. */
  function Pressure(s: State): (n: nat)
  {
    |s.broker.ready| + |InFlight(s.requests)| + |Loaded(s.broker, s.workers)|
  }

  /** The ways one message more than the admitted ones can arise: a message is taken back from a running worker, its
      worker is lost between the re-enqueue and the ack, or a request is admitted on a misread depth. */
  predicate Exceeds(s: State, step: Step)
  {
    match step
    case Redeliver(_) => true
    case CheckDepth(_, misread) => misread
    case Die(w) => Republished(s, w)
    case SettleRaises(w) => Republished(s, w)
    case Reenqueue(w, send) => send == Broken(true) && w in s.broker.unacked
    case _ => false
  }

  predicate Republished(s: State, w: nat)
  {
    BusyAt(s.workers, w) && s.workers[w].stage == Settling(true) && w in s.broker.unacked
  }

  function LoadAt(s: State, w: nat): (n: nat)
  {
    if w in s.workers && Loads(s.workers[w], w in s.broker.unacked) then 1 else 0
  }

  function FlightAt(rs: Requests, r: nat): (n: nat)
  {
    if r in rs && !rs[r].Validated? then 1 else 0
  }

  /** Two sets that differ at most in one element. */
  lemma SizesDiffer(a: set<nat>, b: set<nat>, x: nat)
    requires a - {x} == b - {x}
    ensures |b| - |a| == (if x in b then 1 else 0) - (if x in a then 1 else 0)
  {
    assert |a - {x}| == |a| - if x in a then 1 else 0;
    assert |b - {x}| == |b| - if x in b then 1 else 0;
  }

  lemma LoadedElsewhere(b: Broker, ws: Tasks, b': Broker, ws': Tasks, w: nat)
    requires ws' == With(ws, w, TaskOf(ws', w))
    requires forall v: nat :: v != w ==> (v in b.unacked <==> v in b'.unacked)
    ensures Loaded(b, ws) - {w} == Loaded(b', ws') - {w}
  {
    forall v: nat ensures v in Loaded(b, ws) - {w} <==> v in Loaded(b', ws') - {w} {
      if v != w { assert v in ws <==> v in ws'; }
    }
  }

  lemma PressureWorker(s: State, t: State, w: nat)
    requires t.workers == With(s.workers, w, TaskOf(t.workers, w)) && t.requests == s.requests
    requires forall v: nat :: v != w ==> (v in s.broker.unacked <==> v in t.broker.unacked)
    ensures Pressure(t) - Pressure(s) == |t.broker.ready| - |s.broker.ready| + LoadAt(t, w) - LoadAt(s, w)
  {
    LoadedElsewhere(s.broker, s.workers, t.broker, t.workers, w);
    SizesDiffer(Loaded(s.broker, s.workers), Loaded(t.broker, t.workers), w);
  }

  lemma PressureRequest(s: State, t: State, r: nat)
    requires forall q: nat :: q != r ==> (q in s.requests <==> q in t.requests) && (q in s.requests ==> t.requests[q] == s.requests[q])
    requires t.workers == s.workers && t.broker.unacked == s.broker.unacked
    ensures Pressure(t) - Pressure(s) == |t.broker.ready| - |s.broker.ready| + FlightAt(t.requests, r) - FlightAt(s.requests, r)
  {
    var before, after := InFlight(s.requests), InFlight(t.requests);
    assert before - {r} == after - {r} by {
      forall q: nat ensures q in before - {r} <==> q in after - {r} {
        if q != r { assert q in s.requests <==> q in t.requests; }
      }
    }
    SizesDiffer(before, after, r);
  }

  /** No step but an admission below the threshold and a surplus message raises the pressure. */
  ghost predicate Eases(s: State, t: State, step: Step)
  {
    || Pressure(t) <= Pressure(s) + (if Exceeds(s, step) then 1 else 0)
    || (step.CheckDepth? && !step.misread && |s.broker.ready| < s.cfg.threshold && t.broker == s.broker)
  }

  lemma ReturnedSize(b: Broker, w: nat)
    ensures |Returned(b, w).ready| == |b.ready| + if w in b.unacked then 1 else 0
    ensures Returned(b, w).unacked == b.unacked - {w}
  {
  }

  lemma EasesCheck(s: State, step: Step)
    requires Enabled(s, step)
    requires step.ReadStatus? || step.SessionFails? || step.ClaimError?
    ensures Eases(s, Do(s, step), step)
  {
    hide Pressure, Put;
    PressureWorker(s, Do(s, step), step.w);
  }

  lemma EasesSettle(s: State, step: Step)
    requires Enabled(s, step)
    requires step.Settle? || step.SettleRaises?
    ensures Eases(s, Do(s, step), step)
  {
    hide Pressure, Put;
    PressureWorker(s, Do(s, step), step.w);
  }

  lemma EasesProcess(s: State, step: Step)
    requires Enabled(s, step)
    requires step.Parse? || step.Store? || step.Raise?
    ensures Eases(s, Do(s, step), step)
  {
    hide Pressure, Put;
    PressureWorker(s, Do(s, step), step.w);
  }

  lemma EasesFetch(s: State, step: Step)
    requires Enabled(s, step)
    requires step.Fetch? || step.Start?
    ensures Eases(s, Do(s, step), step)
  {
    hide Pressure, Put;
    PressureWorker(s, Do(s, step), step.w);
  }

  lemma EasesReturn(s: State, step: Step)
    requires Enabled(s, step) && Linked(s.broker, s.workers)
    requires step.Begin? || step.Nack? || step.Exit?
    ensures Eases(s, Do(s, step), step)
  {
    hide Pressure, Returned;
    ReturnedSize(s.broker, step.w);
    PressureWorker(s, Do(s, step), step.w);
  }

  lemma EasesDie(s: State, w: nat)
    requires w in s.workers && Linked(s.broker, s.workers)
    ensures Eases(s, DoDie(s, w), Die(w))
  {
    hide Pressure, Returned;
    ReturnedSize(s.broker, w);
    PressureWorker(s, DoDie(s, w), w);
  }

  lemma EasesRedeliver(s: State, w: nat)
    requires w in s.broker.unacked && Linked(s.broker, s.workers)
    ensures Eases(s, s.(broker := Returned(s.broker, w)), Redeliver(w))
  {
    hide Pressure, Returned;
    ReturnedSize(s.broker, w);
    PressureWorker(s, s.(broker := Returned(s.broker, w)), w);
  }

  lemma EasesDeliver(s: State, w: nat, job: Uuid)
    requires w in s.workers && s.workers[w].Idle? && job in s.broker.ready
    ensures Eases(s, DoDeliver(s, w, job), Deliver(w, job))
  {
    hide Pressure;
    PressureWorker(s, DoDeliver(s, w, job), w);
  }

  lemma EasesReenqueue(s: State, w: nat, send: Send)
    requires BusyAt(s.workers, w) && s.workers[w].stage.Requeued?
    ensures Eases(s, DoReenqueue(s, w, send), Reenqueue(w, send))
  {
    hide Pressure;
    PressureWorker(s, DoReenqueue(s, w, send), w);
  }

  /** A transaction never makes a worker that could publish nothing able to publish. */
  lemma TransactionLoad(s: State, step: Step)
    requires Enabled(s, step) && (step.Claim? || step.Complete? || step.Resolve?)
    ensures LoadAt(s, step.w) == 1
  {
  }

  lemma EasesTransaction(s: State, step: Step)
    requires Enabled(s, step) && (step.Claim? || step.Complete? || step.Resolve?)
    ensures Eases(s, Do(s, step), step)
  {
    hide Pressure, DoClaim, DoComplete, DoResolve;
    QuietTransaction(s, step);
    TasksFrame(s, step);
    match step {
      case Claim(w, commit) => ClaimHistory(s, w, commit);
      case Complete(w, a, commit) => CompleteHistory(s, w, a, commit);
      case Resolve(w, error, commit) => ResolveHistory(s, w, error, commit);
    }
    PressureWorker(s, Do(s, step), step.w);
    TransactionLoad(s, step);
  }

  lemma EasesRequest(s: State, step: Step)
    requires Enabled(s, step)
    requires step.Submit? || step.CheckDepth? || step.Publish? || step.Abandon? || step.Insert?
    ensures Eases(s, Do(s, step), step)
  {
    hide Pressure, InsertJob;
    PressureRequest(s, Do(s, step), step.r);
  }

  lemma EasesClient(s: State, step: Step)
    requires Enabled(s, step)
    requires step.Register? || step.Upload? || step.Stop?
    ensures Eases(s, Do(s, step), step)
  {
    hide InsertDocument, Put;
  }

  lemma EasesDo(s: State, step: Step)
    requires Enabled(s, step) && Linked(s.broker, s.workers)
    ensures Eases(s, Do(s, step), step)
  {
    hide Eases, Linked, Pressure;
    match step
    case Register(_, _) => EasesClient(s, step);
    case Upload(_, _) => EasesClient(s, step);
    case Submit(_, _, _) => EasesRequest(s, step);
    case Start(_) => EasesFetch(s, step);
    case Stop(_) => EasesClient(s, step);
    case CheckDepth(_, _) => EasesRequest(s, step);
    case Insert(_, _, _) => EasesRequest(s, step);
    case Publish(_) => EasesRequest(s, step);
    case Abandon(_) => EasesRequest(s, step);
    case Deliver(w, job) => EasesDeliver(s, w, job);
    case Begin(_) => EasesReturn(s, step);
    case ReadStatus(_) => EasesCheck(s, step);
    case SessionFails(_) => EasesCheck(s, step);
    case Claim(_, _) => EasesTransaction(s, step);
    case ClaimError(_) => EasesCheck(s, step);
    case Settle(_) => EasesSettle(s, step);
    case SettleRaises(_) => EasesSettle(s, step);
    case Nack(_) => EasesReturn(s, step);
    case Fetch(_) => EasesFetch(s, step);
    case Parse(_) => EasesProcess(s, step);
    case Store(_) => EasesProcess(s, step);
    case Complete(_, _, _) => EasesTransaction(s, step);
    case Raise(_) => EasesProcess(s, step);
    case Resolve(_, _, _) => EasesTransaction(s, step);
    case Reenqueue(w, send) => EasesReenqueue(s, w, send);
    case Exit(_) => EasesReturn(s, step);
    case Die(w) => EasesDie(s, w);
    case Redeliver(w) => EasesRedeliver(s, w);
  }

  // ----------------------------------------------------------------- whole runs

  /** The surplus messages of a run. */
  ghost function Surplus(s: State, es: seq<Event>): (n: nat)
    requires Run(s, es)
  {
    if es == [] then 0
    else Surplus(s, Front(es)) + if Exceeds(After(s, Front(es)), es[|es| - 1].step) then 1 else 0
  }

  /** Along the whole run at most `n` requests are past the depth check and at most `w` workers are alive. */
  ghost predicate Within(s: State, es: seq<Event>, n: nat, w: nat)
    requires Run(s, es)
  {
    && |InFlight(After(s, es).requests)| <= n
    && |After(s, es).workers| <= w
    && (es != [] ==> Within(s, Front(es), n, w))
  }

  lemma LoadedBound(s: State)
    ensures |Loaded(s.broker, s.workers)| <= |s.workers|
  {
    assert Loaded(s.broker, s.workers) <= s.workers.Keys;
    SubsetSize(Loaded(s.broker, s.workers), s.workers.Keys);
  }

  lemma {:induction false} SubsetSize(a: set<nat>, b: set<nat>)
    requires a <= b
    ensures |a| <= |b|
  {
    if a != {} {
      var x :| x in a;
      SubsetSize(a - {x}, b - {x});
    }
  }

  lemma PressureApply(s: State, e: Event, n: nat, w: nat)
    requires Inv(s) && CanHappen(s, e) && s.cfg.threshold >= 1
    requires |InFlight(Apply(s, e).requests)| <= n && |Apply(s, e).workers| <= w
    ensures || Pressure(Apply(s, e)) <= Pressure(s) + (if Exceeds(s, e.step) then 1 else 0)
            || Pressure(Apply(s, e)) <= s.cfg.threshold - 1 + n + w
  {
    hide Inv, Do, Enabled, Loaded, InFlight;
    EnabledLater(s, e.now, e.step);
    Permanence.LinkedOf(s);
    EasesDo(s.(clock := e.now), e.step);
    ExceedsLater(s, e.now, e.step);
    LoadedBound(Apply(s, e));
  }

  lemma ExceedsLater(s: State, now: nat, step: Step)
    ensures Exceeds(s.(clock := now), step) == Exceeds(s, step)
  {
  }

  /** The ready queue is bounded in every run although the depth is read before the insert and published after the
      commit: by the threshold, the requests in flight, one message for each worker, and the surplus. */
  lemma {:induction false} ReadyQueueIsBounded(cfg: Config, es: seq<Event>, n: nat, w: nat)
    requires Valid(cfg) && cfg.threshold >= 1
    requires Run(Initial(cfg), es) && Within(Initial(cfg), es, n, w)
    ensures Pressure(After(Initial(cfg), es)) <= cfg.threshold - 1 + n + w + Surplus(Initial(cfg), es)
    ensures |After(Initial(cfg), es).broker.ready| <= cfg.threshold - 1 + n + w + Surplus(Initial(cfg), es)
    ensures After(Initial(cfg), es).cfg == cfg
  {
    hide Inv, CanHappen, Apply, Exceeds;
    if es != [] {
      ReadyQueueIsBounded(cfg, Front(es), n, w);
      InitialInv(cfg);
      InvRun(Initial(cfg), Front(es));
      var p, e := After(Initial(cfg), Front(es)), es[|es| - 1];
      PressureApply(p, e, n, w);
      RowApply(p, e, 0);
    }
  }
}
