/** The running system as one piece of code sees it: the shared services, everybody else who acts on them while that
    code awaits, and the run of the step system that all of it amounts to. */
module Cluster {
  import opened Wrappers
  import opened Keys
  import opened Schema
  import opened Protocol
  import opened Ownership
  import opened Frames
  import opened Invariants
  import opened Scripts
  import opened Infrastructure
  import opened Effects
  import Lifecycle
  import Permanence

  /** Whose code runs; everybody else may act whenever it awaits. */
  datatype Party = Consumer(w: nat) | Client(r: nat)

  predicate Mine(me: Party, step: Step)
  {
    match me
    case Consumer(w) => Actor(step) == Some(w)
    case Client(r) => RequestOf(step) == Some(r)
  }

  /** The faulty steps that the party took along a run. */
  ghost function Faults(me: Party, es: seq<Event>): (n: nat)
  {
    if es == [] then 0
    else
      var step := es[|es| - 1].step;
      Faults(me, es[..|es| - 1]) + if Mine(me, step) && Faulty(step) then 1 else 0
  }

  /** The steps that the party took along a run, in order. */
  ghost function Deeds(me: Party, es: seq<Event>): (steps: seq<Step>)
  {
    if es == [] then []
    else
      var step := es[|es| - 1].step;
      Deeds(me, es[..|es| - 1]) + if Mine(me, step) then [step] else []
  }

  /** What no continuation changes in a row: its document, and everything once it is COMPLETED or FAILED. */
  predicate RowKept(before: Job, after: Job)
  {
    SameDocument(before, after) && (!Active(before) ==> after == before)
  }

  /** What the others leave to a consumer: its task, a stop signal it got, its job's document, and its message unless
      the broker took it back; and to a client its request, the documents and the jobs. */
  ghost predicate Kept(me: Party, s: State, t: State)
  {
    match me
    case Consumer(w) =>
      && TaskOf(t.workers, w) == TaskOf(s.workers, w)
      && (w in s.stopping ==> w in t.stopping)
      && (w in t.broker.unacked ==> w in s.broker.unacked)
      && (BusyAt(s.workers, w) && s.workers[w].job in s.db.jobs ==>
            && s.workers[w].job in t.db.jobs
            && RowKept(s.db.jobs[s.workers[w].job], t.db.jobs[s.workers[w].job]))
    case Client(r) =>
      && RequestIn(t.requests, r) == RequestIn(s.requests, r)
      && (forall d: Uuid :: d in s.db.docs ==> d in t.db.docs && t.db.docs[d] == s.db.docs[d])
      && (forall j: Uuid :: j in s.db.jobs ==> j in t.db.jobs && RowKept(s.db.jobs[j], t.db.jobs[j]))
  }

  lemma OthersKeep(me: Party, s: State, e: Event)
    requires Inv(s) && CanHappen(s, e) && !Mine(me, e.step)
    ensures Kept(me, s, Apply(s, e))
    ensures me.Consumer? ==> (me.w in Apply(s, e).stopping <==> me.w in s.stopping || e.step == Stop(me.w))
  {
    hide Inv, Enabled, Do, Returned;
    var p := s.(clock := e.now);
    EnabledLater(s, e.now, e.step);
    match me
    case Client(r) =>
      RequestsFrame(p, e.step, r);
      forall d: Uuid | d in s.db.docs ensures d in Do(p, e.step).db.docs && Do(p, e.step).db.docs[d] == s.db.docs[d] {
        DocumentsStay(p, e.step, d);
      }
      forall j: Uuid | j in s.db.jobs
        ensures j in Do(p, e.step).db.jobs && RowKept(s.db.jobs[j], Do(p, e.step).db.jobs[j])
      {
        Lifecycle.RowApply(s, e, j);
      }
    case Consumer(w) =>
      TasksFrame(p, e.step);
      if e.step == Stop(w) { StopIs(s, w); StopSignals(s, e.now, w); } else { StoppingFrame(p, e.step, w); }
      HeldFrame(p, e.step, w);
      if BusyAt(s.workers, w) { Lifecycle.RowApply(s, e, s.workers[w].job); }
  }

  /** A run of a healthy system grows by one event. */
  lemma RunGrows(cfg: Config, me: Party, es: seq<Event>, s: State, e: Event)
    requires Run(Initial(cfg), es) && After(Initial(cfg), es) == s
    requires Inv(s) && CanHappen(s, e)
    ensures Run(Initial(cfg), es + [e]) && After(Initial(cfg), es + [e]) == Apply(s, e)
    ensures Inv(Apply(s, e)) && Apply(s, e).cfg == s.cfg && Apply(s, e).clock == e.now
    ensures Faults(me, es + [e]) == Faults(me, es) + if Mine(me, e.step) && Faulty(e.step) then 1 else 0
    ensures Deeds(me, es + [e]) == Deeds(me, es) + if Mine(me, e.step) then [e.step] else []
  {
    hide Inv, CanHappen, Apply, Mine, Faulty;
    InvApply(s, e);
    Lifecycle.RowApply(s, e, 0);
    var all := es + [e];
    assert all[..|all| - 1] == es && all[|all| - 1] == e;
  }

  lemma StopIs(s: State, w: nat)
    requires Enabled(s, Stop(w))
    ensures w in s.workers
  {
  }

  lemma StopSignals(s: State, now: nat, w: nat)
    requires w in s.workers
    ensures Enabled(s, Stop(w)) && Enabled(s.(clock := now), Stop(w)) && !Faulty(Stop(w))
    ensures var t := Do(s.(clock := now), Stop(w));
            w in t.stopping && t.workers == s.workers && t.db == s.db && t.objects == s.objects && t.broker == s.broker
  {
  }

  lemma StartEffect(s: State, now: nat, w: nat)
    requires w !in s.workers
    ensures Enabled(s, Start(w)) && Enabled(s.(clock := now), Start(w)) && !Faulty(Start(w))
    ensures var t := Do(s.(clock := now), Start(w));
            && w !in t.stopping && t.workers == s.workers[w := Idle]
            && t.db == s.db && t.objects == s.objects && t.broker == s.broker
  {
  }

  /** A worker's own steps leave its stop flag as it is until it leaves. */
  lemma OwnFlag(s: State, step: Step, w: nat)
    requires Enabled(s, step) && !step.Start? && step != Stop(w)
    requires w in s.workers && w in Do(s, step).workers
    ensures w in Do(s, step).stopping <==> w in s.stopping
  {
    hide Do, Enabled;
    if Actor(step) != Some(w) { StoppingFrame(s, step, w); }
    else if Transaction(step) { TransactionKeeps(s, step); }
    else { Permanence.LeavingStops(s, step, w); }
  }

  /** The run passed this state after event number `from`. */
  ghost predicate PassedIn(cfg: Config, trace: seq<Event>, from: nat, s: State)
  {
    exists k :: from <= k <= |trace| && Run(Initial(cfg), trace[..k]) && After(Initial(cfg), trace[..k]) == s
  }

  lemma PassedNow(cfg: Config, trace: seq<Event>, from: nat, s: State)
    requires Run(Initial(cfg), trace) && After(Initial(cfg), trace) == s && from <= |trace|
    ensures PassedIn(cfg, trace, from, s)
  {
    hide Run, After;
    assert trace[..|trace|] == trace;
  }

  /** A longer run passed it too, and an earlier mark saw it too. */
  lemma PassedStays(cfg: Config, before: seq<Event>, after: seq<Event>, late: nat, early: nat, s: State)
    requires PassedIn(cfg, before, late, s) && before <= after && early <= late
    ensures PassedIn(cfg, after, early, s)
  {
    hide Run, After;
    var k :| late <= k <= |before| && Run(Initial(cfg), before[..k]) && After(Initial(cfg), before[..k]) == s;
    assert after[..k] == before[..k];
  }

  /** `asyncio.Event`, set by the signal handler. */
  class StopEvent {
    var isSet: bool

    constructor ()
      ensures !isSet
    {
      isSet := false;
    }
  }

  class System {
    const cfg: Config
    const me: Party
    const schedule: nat -> seq<Event>
    const log: CallLog
    const db: Database
    const store: ObjectStore
    const queue: MessageQueue
    const stop: StopEvent
    var clock: nat
    var awaits: nat
    /** The last state of the recorded run; only the environment reads it, the code decides nothing from it. */
    var model: State
    ghost var trace: seq<Event>
    ghost var deeds: seq<Step>

    /** The recorded events are a run of the step system that ends in the model state; `deeds` are the running code's
        own steps in it, and each fault among them was a service call that raised. */
    ghost predicate Traced()
      reads this, log
    {
      && Valid(cfg)
      && Run(Initial(cfg), trace)
      && After(Initial(cfg), trace) == model
      && model.cfg == cfg
      && model.clock <= clock
      && deeds == Deeds(me, trace)
      && Faults(me, trace) <= log.Troubles()
    }

    /** The run passed this state after event number `from`. */
    ghost predicate Passed(from: nat, s: State)
      reads this
    {
      PassedIn(cfg, trace, from, s)
    }

    /** The shared services hold what the model says. */
    predicate Agrees()
      reads this, db, store, queue
    {
      model.db == db.tables && model.objects == store.objects && model.broker == queue.state
    }

    /** The running consumer's stop event is its stop flag in the model. */
    predicate Signalled()
      reads this, stop
    {
      me.Consumer? && me.w in model.workers ==> (stop.isSet <==> me.w in model.stopping)
    }

    predicate Wired()
      reads this
    {
      db.log == log && store.log == log && queue.log == log
    }

    ghost predicate Sound()
      reads this, db, store, queue, stop, log
    {
      Traced() && Agrees() && Signalled() && Wired() && Inv(model)
    }

    constructor (cfg: Config, me: Party, schedule: nat -> seq<Event>, weather: Outlook, ids: nat -> Uuid)
      requires Valid(cfg)
      ensures Sound() && trace == [] && deeds == [] && model == Initial(cfg)
      ensures this.cfg == cfg && this.me == me && this.schedule == schedule && log.weather == weather && log.ids == ids
      ensures fresh(db) && fresh(store) && fresh(queue) && fresh(log) && fresh(stop)
    {
      this.cfg, this.me, this.schedule := cfg, me, schedule;
      var calls := new CallLog(weather, ids);
      log := calls;
      db := new Database(calls);
      store := new ObjectStore(calls);
      queue := new MessageQueue(calls);
      stop := new StopEvent();
      clock, awaits := 0, 0;
      model := Initial(cfg);
      trace, deeds := [], [];
      new;
      Lifecycle.InitialInv(cfg);
    }

    /** The code runs on worker `w`, which works on the job at this stage. */
    ghost predicate Doing(w: nat, job: Uuid, stage: Stage)
      reads this
    {
      me == Consumer(w) && w in model.workers && model.workers[w] == Busy(job, stage)
    }

    ghost predicate Resting(w: nat)
      reads this
    {
      me == Consumer(w) && w in model.workers && model.workers[w] == Idle
    }

    /** What `uuid4()` answers just before call number `n`. */
    function IdAt(n: nat): (id: Uuid)
    {
      log.ids(n)
    }

    /** Nothing recorded, signalled or raised is forgotten. */
    twostate predicate Grew()
      reads this, stop, log
    {
      && old(trace) <= trace && old(deeds) <= deeds
      && (old(stop.isSet) ==> stop.isSet) && old(log.count) <= log.count && old(log.refused) <= log.refused
    }

    /** The code took exactly these steps, and made its calls up to this number. */
    twostate predicate Followed(steps: seq<Step>, next: nat)
      reads this, log
    {
      deeds == old(deeds) + steps && log.count == next
    }

    /** A call raised that no fault of the run accounts for yet. */
    ghost predicate Excused()
      reads this, log
    {
      Faults(me, trace) < log.Troubles()
    }

    /** `datetime.now()`: one clock that does not go back. */
    method Now() returns (now: nat)
      modifies this`clock
      ensures old(clock) <= clock == now
    {
      var elapsed: int := *;
      if elapsed > 0 { clock := clock + elapsed; }
      now := clock;
    }

    /** Appends one event to the run. */
    method Advance(step: Step)
      requires Traced() && Inv(model) && Enabled(model, step) && Enabled(model.(clock := clock), step)
      requires Mine(me, step) && Faulty(step) ==> Faults(me, trace) < log.Troubles()
      modifies this`model, this`trace, this`deeds
      ensures Traced() && Inv(model)
      ensures model == Do(old(model).(clock := clock), step)
      ensures trace == old(trace) + [Event(clock, step)]
      ensures deeds == old(deeds) + if Mine(me, step) then [step] else []
      ensures Faults(me, trace) == old(Faults(me, trace)) + if Mine(me, step) && Faulty(step) then 1 else 0
    {
      hide Inv, Enabled, Do, Run, After, Mine, Faulty, Faults, Deeds;
      RunGrows(cfg, me, trace, model, Event(clock, step));
      trace := trace + [Event(clock, step)];
      deeds := deeds + if Mine(me, step) then [step] else [];
      model := Do(model.(clock := clock), step);
    }

    /** The code has just done to the shared services what `step` does to the model. */
    method Record(step: Step)
      requires Traced() && Signalled() && Wired() && Inv(model) && Enabled(model, step) && Enabled(model.(clock := clock), step)
      requires !step.Start? && !step.Stop?
      requires Faulty(step) ==> Faults(me, trace) < log.Troubles()
      requires Do(model.(clock := clock), step).db == db.tables
      requires Do(model.(clock := clock), step).objects == store.objects
      requires Do(model.(clock := clock), step).broker == queue.state
      modifies this`model, this`trace, this`deeds
      ensures Sound()
      ensures model == Do(old(model).(clock := clock), step)
      ensures trace == old(trace) + [Event(clock, step)]
      ensures deeds == old(deeds) + if Mine(me, step) then [step] else []
      ensures Faults(me, trace) == old(Faults(me, trace)) + if Mine(me, step) && Faulty(step) then 1 else 0
    {
      hide Inv, Enabled, Do, Run, After, Faults, Faulty, Mine, Deeds;
      if me.Consumer? && me.w in Do(model.(clock := clock), step).workers {
        MovesIn(model.(clock := clock), step, me.w);
        OwnFlag(model.(clock := clock), step, me.w);
      }
      Advance(step);
    }

    /** The same for a step of the running consumer, whose effect is known. */
    method Perform(step: Step, ghost w: nat, ghost task: Task)
      requires Traced() && Signalled() && Wired() && Inv(model) && me == Consumer(w)
      requires Effect(model, clock, step, w, db.tables, store.objects, queue.state, task)
      requires Faulty(step) ==> Excused()
      modifies this`model, this`trace, this`deeds
      ensures Sound() && Grew()
      ensures model.workers == old(model).workers[w := task]
      ensures deeds == old(deeds) + [step]
      ensures !Faulty(step) ==> Faults(me, trace) == old(Faults(me, trace))
    {
      hide Inv, Run, After, Faults, Deeds, Faulty, Enabled, Do;
      EffectIs(model, clock, step, w, db.tables, store.objects, queue.state, task);
      Record(step);
    }

    /** One step of somebody else, on the services and on the model. */
    method Other(e: Event)
      requires Sound() && clock <= e.now && Enabled(model, e.step) && !Mine(me, e.step)
      modifies this`clock, this`model, this`trace, this`deeds, db`tables, store`objects, queue`state, stop`isSet
      ensures Sound() && Kept(me, old(model), model) && Grew() && deeds == old(deeds)
    {
      hide Inv, Enabled, Do, Run, After, Faults, Faulty, Mine, Deeds;
      OthersKeep(me, model, e);
      EnabledLater(model, e.now, e.step);
      clock := e.now;
      Advance(e.step);
      if me.Consumer? && e.step == Stop(me.w) { stop.isSet := true; }
      db.tables, store.objects, queue.state := model.db, model.objects, model.broker;
    }

    /** An await: the others take whatever steps the schedule holds for this moment, those that can happen. */
    method Await()
      requires Sound()
      modifies this`clock, this`awaits, this`model, this`trace, this`deeds, db`tables, store`objects, queue`state, stop`isSet
      ensures Sound() && Kept(me, old(model), model) && Grew() && deeds == old(deeds)
    {
      hide Inv, Enabled, Do;
      var events := schedule(awaits);
      awaits := awaits + 1;
      for i := 0 to |events|
        invariant Sound() && Kept(me, old(model), model) && Grew() && deeds == old(deeds)
      {
        if clock <= events[i].now && Enabled(model, events[i].step) && !Mine(me, events[i].step) {
          Other(events[i]);
        }
      }
    }

    /** The consumer process comes up; a stop signal that came first is not forgotten. */
    method Join(w: nat)
      requires Sound() && me == Consumer(w) && w !in model.workers
      modifies this`model, this`trace, this`deeds
      ensures Sound() && Resting(w) && Grew() && deeds == old(deeds) + [Start(w)]
    {
      hide Inv, Run, After, Faults, Deeds;
      StartEffect(model, clock, w);
      Advance(Start(w));
      if stop.isSet {
        StopSignals(model, clock, w);
        Advance(Stop(w));
      }
    }

    /** An await of a consumer between two messages. */
    method WaitForMessage(ghost w: nat)
      requires Sound() && Resting(w)
      modifies this`clock, this`awaits, this`model, this`trace, this`deeds, db`tables, store`objects, queue`state, stop`isSet
      ensures Sound() && Resting(w) && Grew() && deeds == old(deeds)
    {
      hide Inv, Run, After, Faults, Mine, RowKept, Deeds;
      Await();
    }

    /** An await of a consumer in the middle of a task. */
    method Pause(ghost w: nat, ghost job: Uuid, ghost stage: Stage)
      requires Sound() && Doing(w, job, stage)
      modifies this`clock, this`awaits, this`model, this`trace, this`deeds, db`tables, store`objects, queue`state, stop`isSet
      ensures Sound() && Doing(w, job, stage) && Grew() && deeds == old(deeds)
      ensures job in old(model).db.jobs ==>
                job in model.db.jobs && RowKept(old(model).db.jobs[job], model.db.jobs[job])
    {
      hide Inv, Run, After, Faults, Mine, RowKept, Deeds;
      Await();
    }
  }

  /** So every guarantee of the reachable states holds at every await of the code. */
  lemma SoundIsReachable(system: System)
    requires system.Sound()
    ensures Reachable(system.model)
  {
    hide Inv, Run, After, Faults;
  }

  /** The state the code is in now is one the run passed. */
  lemma PassedHere(system: System, from: nat)
    requires system.Sound() && from <= |system.trace|
    ensures system.Passed(from, system.model)
  {
    hide Inv, Run, After, Faults, Deeds, PassedIn;
    PassedNow(system.cfg, system.trace, from, system.model);
  }

  lemma SoundInv(system: System)
    requires system.Sound()
    ensures Inv(system.model) && system.model.db == system.db.tables && system.model.broker == system.queue.state
  {
    hide Inv, Run, After, Faults, Deeds;
  }
}
