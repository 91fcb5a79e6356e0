/** Bounded work, and what is settled once no step remains. */
module Termination {
  import opened Wrappers
  import opened Keys
  import opened Schema
  import opened Protocol
  import opened Ownership
  import opened Wakeups
  import opened Contents
  import opened Frames
  import opened Invariants
  import opened Lifecycle
  import opened Losses
  import Permanence
  import Recovery
  import opened Measure

  function Internals(es: seq<Event>): (n: nat)
  {
    if es == [] then 0 else Internals(es[..|es| - 1]) + if Internal(es[|es| - 1].step) then 1 else 0
  }

  lemma PaysApply(s: State, e: Event)
    requires Inv(s) && CanHappen(s, e)
    ensures Pays(s, Apply(s, e), e.step)
  {
    hide Inv, Do, Enabled;
    InvLater(s, e.now);
    EnabledLater(s, e.now, e.step);
    PaysDo(s.(clock := e.now), e.step);
  }

  /** Bounded work: in any run, the steps the pipeline takes by itself number at most Gain for each client action
      and each fault.  So with finitely many of those every run is finite, however the rest is scheduled. */
  lemma {:induction false} RunsAreBounded(cfg: Config, es: seq<Event>)
    requires Valid(cfg) && Run(Initial(cfg), es)
    ensures Internals(es) + Work(After(Initial(cfg), es)) <= Gain(cfg) * (|es| - Internals(es))
    ensures After(Initial(cfg), es).cfg == cfg
  {
    hide Inv, CanHappen, Apply, Work;
    if es == [] {
      NoWork(cfg);
    } else {
      RunsAreBounded(cfg, Front(es));
      InitialInv(cfg);
      InvRun(Initial(cfg), Front(es));
      var p, e := After(Initial(cfg), Front(es)), es[|es| - 1];
      PaysApply(p, e);
      RowApply(p, e, 0);
      var outside := |Front(es)| - Internals(Front(es));
      assert Gain(cfg) * (outside + 1) == Gain(cfg) * outside + Gain(cfg);
    }
  }

  lemma NoWork(cfg: Config)
    ensures Work(Initial(cfg)) == 0
  {
  }

  // ---------------------------------------------------------------- quiescence

  /** The pipeline has nothing left to do by itself. */
  ghost predicate Quiescent(s: State)
  {
    forall step: Step :: Internal(step) ==> !Enabled(s, step)
  }

  predicate Terminal(row: Job) { row.status.Completed? || row.status.Failed? }

  /** A busy worker always has a next step. */
  function NextStep(s: State, w: nat): (step: Step)
    requires BusyAt(s.workers, w)
    ensures Internal(step) && Enabled(s, step) && Actor(step) == Some(w)
    ensures step.Exit? ==> s.workers[w].stage.Raised?
  {
    match s.workers[w].stage
    case Delivered => Begin(w)
    case Received => ReadStatus(w)
    case Checked => Claim(w, Acknowledged)
    case Dropping => Settle(w)
    case Nacking => Nack(w)
    case Raised => Exit(w)
    case Claimed(_) => Fetch(w)
    case Fetched(_, _, _) => Parse(w)
    case Parsed(_, _, _) => Store(w)
    case Stored(_, _) => Complete(w, 0, Acknowledged)
    case Failing(_) => Resolve(w, "", Acknowledged)
    case Requeued => Reenqueue(w, Sent)
    case Acking(_) => Settle(w)
    case Settling(_) => Settle(w)
  }

  function NextOfRequest(s: State, r: nat): (step: Step)
    requires r in s.requests
    ensures Internal(step) && Enabled(s, step) && Actor(step) == None
  {
    match s.requests[r]
    case Validated(_, _) => CheckDepth(r, false)
    case Admitted(_, _) => Insert(r, 0, Acknowledged)
    case Inserted(_) => Publish(r)
  }

  /** With a worker alive, quiescence means rest everywhere. */
  lemma QuiescentRests(s: State)
    requires Linked(s.broker, s.workers) && Quiescent(s) && s.workers != map[]
    ensures forall w :: w in s.workers ==> s.workers[w].Idle?
    ensures s.broker.ready == multiset{} && s.requests == map[]
  {
    hide Enabled;
    forall w | w in s.workers ensures s.workers[w].Idle? {
      if s.workers[w].Busy? {
        var step := NextStep(s, w);
      }
    }
    if r :| r in s.requests {
      var step := NextOfRequest(s, r);
    }
    var w :| w in s.workers;
    forall j | j in s.broker.ready ensures false {
      DeliverEnabled(s, w, j);
    }
  }

  lemma DeliverEnabled(s: State, w: nat, job: Uuid)
    requires Linked(s.broker, s.workers)
    requires w in s.workers && s.workers[w].Idle? && job in s.broker.ready
    ensures Enabled(s, Deliver(w, job))
  {
  }

  /** Completeness: once no internal step remains and a worker is alive, every job is COMPLETED or FAILED,
      except those that lost a wake-up and those whose claim was interrupted. */
  lemma QuiescentIsSettled(s: State, job: Uuid)
    requires Inv(s) && Quiescent(s) && s.workers != map[]
    requires job in s.db.jobs && job !in s.stranded && job !in s.orphaned
    ensures Terminal(s.db.jobs[job])
  {
    hide Shapes, Linked, Known, Documents, Pure, Artifacts, IndexHolds, Quiescent;
    QuiescentRests(s);
  }

  /** Exactly: a job has then ended unless its claim lost its owner or nobody will look at it again. */
  lemma QuiescentIsExact(s: State, job: Uuid)
    requires Inv(s) && Quiescent(s) && s.workers != map[] && job in s.db.jobs
    ensures Terminal(s.db.jobs[job]) <==> job !in s.orphaned && !Permanence.Forgotten(s, job)
  {
    hide Shapes, Linked, Known, Documents, Pure, Artifacts, IndexHolds, Quiescent;
    QuiescentRests(s);
  }

  // --------------------------------------------------------------------- drain

  /** A worker that will keep taking messages. */
  predicate Healthy(s: State, w: nat)
  {
    w in s.workers && w !in s.stopping && (s.workers[w].Busy? ==> !s.workers[w].stage.Raised?)
  }

  /** No internal step takes a healthy worker down. */
  lemma HealthyStep(s: State, step: Step, w: nat)
    requires Inv(s) && Enabled(s, step) && Internal(step) && Healthy(s, w)
    ensures Healthy(Do(s, step), w)
  {
    hide Inv, Do, Enabled;
    TasksFrame(s, step);
    NoNewStops(s, step, w);
    if Actor(step) == Some(w) { HealthyActor(s, step, w); }
  }

  lemma NoNewStops(s: State, step: Step, w: nat)
    requires Enabled(s, step) && Internal(step) && w !in s.stopping && w in s.workers
    ensures w in Do(s, step).workers ==> w !in Do(s, step).stopping
  {
    hide Do, Enabled;
    if Actor(step) != Some(w) { StoppingFrame(s, step, w); }
    else if Transaction(step) { TransactionKeeps(s, step); }
    else if w in Do(s, step).workers { Permanence.LeavingStops(s, step, w); }
  }

  lemma HealthyActor(s: State, step: Step, w: nat)
    requires Inv(s) && Enabled(s, step) && Internal(step) && Healthy(s, w) && Actor(step) == Some(w)
    ensures w in Do(s, step).workers && (Do(s, step).workers[w].Busy? ==> !Do(s, step).workers[w].stage.Raised?)
  {
    hide Inv, DoClaim, DoComplete, DoResolve, DoFetch;
    match step
    case Claim(_, commit) => ClaimHealth(s, w);
    case Complete(_, a, commit) => CompleteHealth(s, w, a);
    case Resolve(_, error, commit) => ResolveHealth(s, w, error);
    case Fetch(_) => FetchHealth(s, w);
    case _ =>
  }

  lemma ClaimHealth(s: State, w: nat)
    requires BusyAt(s.workers, w)
    ensures w in DoClaim(s, w, Acknowledged).workers
    ensures !DoClaim(s, w, Acknowledged).workers[w].Idle? && !DoClaim(s, w, Acknowledged).workers[w].stage.Raised?
  {
    hide UpdateStatus;
  }

  lemma CompleteHealth(s: State, w: nat, a: Uuid)
    requires BusyAt(s.workers, w) && s.workers[w].stage.Stored?
    ensures w in DoComplete(s, w, a, Acknowledged).workers
    ensures !DoComplete(s, w, a, Acknowledged).workers[w].Idle? && !DoComplete(s, w, a, Acknowledged).workers[w].stage.Raised?
  {
    hide CompletedTables;
  }

  lemma ResolveHealth(s: State, w: nat, error: string)
    requires Inv(s) && BusyAt(s.workers, w) && s.workers[w].stage.Failing?
    ensures w in DoResolve(s, w, error, Acknowledged).workers
    ensures !DoResolve(s, w, error, Acknowledged).workers[w].Idle? && !DoResolve(s, w, error, Acknowledged).workers[w].stage.Raised?
  {
    hide Shapes, Claims, Linked, Known, Awake, Documents, Pure, Artifacts;
    if IsStarted(s.db.jobs, s.workers[w].job) {
      UpdateKeepsIndex(s.db.jobs, s.workers[w].job, FailureStatus(s.workers[w].stage.run), Status.Started, Some(error), s.clock);
    }
  }

  lemma FetchHealth(s: State, w: nat)
    requires BusyAt(s.workers, w) && s.workers[w].stage.Claimed?
    ensures w in DoFetch(s, w).workers
    ensures !DoFetch(s, w).workers[w].Idle? && !DoFetch(s, w).workers[w].stage.Raised?
  {
  }

  /** Internal steps neither strand nor orphan a job. */
  lemma InternalIsHarmless(s: State, step: Step)
    requires Inv(s) && Enabled(s, step) && Internal(step)
    ensures Do(s, step).stranded == s.stranded && Do(s, step).orphaned == s.orphaned
  {
    hide Inv, Do, Enabled;
    HistoryGrows(s, step);
    forall j: Uuid | j in Do(s, step).stranded ensures j in s.stranded {
      if j !in s.stranded { StrandedStep(s, step, j); }
    }
    forall j: Uuid | j in Do(s, step).orphaned ensures j in s.orphaned {
      if j !in s.orphaned { OrphanedStep(s, step, j); }
    }
  }

  ghost predicate AllInternal(es: seq<Event>)
  {
    forall i :: 0 <= i < |es| ==> Internal(es[i].step)
  }

  /** Every schedule of internal steps is at most as long as the work at hand. */
  lemma {:induction false} InternalRunsAreShort(s: State, es: seq<Event>)
    requires Inv(s) && Run(s, es) && AllInternal(es)
    ensures |es| + Work(After(s, es)) <= Work(s)
  {
    hide Inv, CanHappen, Apply, Work;
    if es != [] {
      InternalRunsAreShort(s, Front(es));
      InvRun(s, Front(es));
      PaysApply(After(s, Front(es)), es[|es| - 1]);
    }
  }

  /** From any state with one healthy worker some schedule of internal steps drains the system: at its end every
      job that was neither stranded nor orphaned is COMPLETED or FAILED. */
  lemma {:induction false} Drains(s: State, w: nat) returns (es: seq<Event>)
    requires Inv(s) && Healthy(s, w)
    ensures Run(s, es) && AllInternal(es) && |es| <= Work(s)
    ensures Quiescent(After(s, es))
    ensures forall j: Uuid :: j in After(s, es).db.jobs && j !in s.stranded && j !in s.orphaned ==>
                                Terminal(After(s, es).db.jobs[j])
    decreases Work(s)
  {
    hide Inv, Do, Enabled, Work, Terminal;
    if Quiescent(s) {
      es := [];
      forall j: Uuid | j in s.db.jobs && j !in s.stranded && j !in s.orphaned ensures Terminal(s.db.jobs[j]) {
        QuiescentIsSettled(s, j);
      }
    } else {
      var step: Step :| Internal(step) && Enabled(s, step);
      var e := Event(s.clock, step);
      assert s.(clock := e.now) == s;
      InvDo(s, step);
      PaysDo(s, step);
      HealthyStep(s, step, w);
      InternalIsHarmless(s, step);
      var rest := Drains(Do(s, step), w);
      Recovery.RunPrepend(s, e, rest);
      es := [e] + rest;
    }
  }

  /** Every schedule of internal steps drains it: whatever order they are taken in, a healthy worker stays healthy, no
      further job is stranded or orphaned, and once none remains every other job is COMPLETED or FAILED. */
  lemma {:induction false} EveryScheduleDrains(s: State, w: nat, es: seq<Event>)
    requires Inv(s) && Healthy(s, w) && Run(s, es) && AllInternal(es)
    ensures Healthy(After(s, es), w)
    ensures After(s, es).stranded == s.stranded && After(s, es).orphaned == s.orphaned
    ensures Quiescent(After(s, es)) ==>
              forall j: Uuid :: j in After(s, es).db.jobs && j !in s.stranded && j !in s.orphaned ==>
                                  Terminal(After(s, es).db.jobs[j])
  {
    hide Inv, Do, Enabled, Terminal, Healthy;
    var t := After(s, es);
    if es != [] {
      EveryScheduleDrains(s, w, Front(es));
      var p, e := After(s, Front(es)), es[|es| - 1];
      InvRun(s, Front(es));
      InvLater(p, e.now);
      EnabledLater(p, e.now, e.step);
      HealthyLater(p, e.now, w);
      HealthyStep(p.(clock := e.now), e.step, w);
      InternalIsHarmless(p.(clock := e.now), e.step);
    }
    InvRun(s, es);
    if Quiescent(t) {
      HealthyAlive(t, w);
      forall j: Uuid | j in t.db.jobs && j !in s.stranded && j !in s.orphaned ensures Terminal(t.db.jobs[j]) {
        QuiescentIsSettled(t, j);
      }
    }
  }

  lemma HealthyLater(s: State, now: nat, w: nat)
    ensures Healthy(s.(clock := now), w) == Healthy(s, w)
  {
  }

  lemma HealthyAlive(s: State, w: nat)
    requires Healthy(s, w)
    ensures s.workers != map[]
  {
  }
}
