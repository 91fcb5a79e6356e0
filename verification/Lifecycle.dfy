/** Whole runs seen from one job row: every interleaving is a path of the published lifecycle. */
module Lifecycle {
  import opened Wrappers
  import opened Keys
  import opened Schema
  import opened Protocol
  import opened Ownership
  import opened Wakeups
  import opened Contents
  import opened Invariants
  import opened Frames

  function RowAt(jobs: Jobs, job: Uuid): (r: Option<Job>)
  {
    if job in jobs then Some(jobs[job]) else None
  }

  /** What one step may do to one row. */
  predicate Edge(a: Option<Job>, b: Option<Job>, limit: nat)
  {
    match (a, b)
    case (None, None) => true
    case (None, Some(r)) => LifeOf(r) == Life(Queued, 0, limit)
    case (Some(r), Some(q)) =>
      SameDocument(r, q) && r.createdAt == q.createdAt && (r == q || LifeStep(LifeOf(r), LifeOf(q)))
    case (Some(_), None) => false
  }

  /** The worker whose transaction a step commits. */
  function Writer(step: Step): (w: Option<nat>)
  {
    match step
    case Complete(w, _, _) => Some(w)
    case Resolve(w, _, _) => Some(w)
    case _ => None
  }

  /** The row is written by the owner of its claim, or claimed while QUEUED. */
  predicate Written(s: State, step: Step, job: Uuid)
  {
    || (step.Claim? && IsQueued(s.db.jobs, job) && BusyAt(s.workers, step.w) && s.workers[step.w].job == job)
    || (Writer(step).Some? && HoldsClaim(s.workers, Writer(step).value, job) && IsStarted(s.db.jobs, job))
  }

  lemma ClaimEdge(s: State, w: nat, commit: Commit, job: Uuid)
    requires Inv(s) && BusyAt(s.workers, w) && s.workers[w].stage.Checked?
    ensures Edge(RowAt(s.db.jobs, job), RowAt(DoClaim(s, w, commit).db.jobs, job), s.cfg.maxAttempts)
    ensures RowAt(DoClaim(s, w, commit).db.jobs, job) != RowAt(s.db.jobs, job) ==> Written(s, Claim(w, commit), job)
  {
    hide Shapes, Claims, Linked, Known, Awake, Documents, Pure, Artifacts, IndexHolds;
    JobKnown(s, w);
  }

  lemma CompleteEdge(s: State, w: nat, a: Uuid, commit: Commit, job: Uuid)
    requires Inv(s) && BusyAt(s.workers, w) && s.workers[w].stage.Stored?
    ensures Edge(RowAt(s.db.jobs, job), RowAt(DoComplete(s, w, a, commit).db.jobs, job), s.cfg.maxAttempts)
    ensures RowAt(DoComplete(s, w, a, commit).db.jobs, job) != RowAt(s.db.jobs, job) ==> Written(s, Complete(w, a, commit), job)
  {
    hide Shapes, Claims, Linked, Known, Awake, Documents, Pure, Artifacts, IndexHolds, UpsertArtifact;
    JobKnown(s, w);
  }

  lemma ResolveWrites(s: State, w: nat, error: string, commit: Commit)
    requires IndexHolds(s.db.jobs) && BusyAt(s.workers, w) && s.workers[w].stage.Failing?
    ensures var job := s.workers[w].job;
            DoResolve(s, w, error, commit).db.jobs
            == if IsStarted(s.db.jobs, job) && commit != Unacknowledged(false)
               then s.db.jobs[job := Stamp(s.db.jobs[job], FailureStatus(s.workers[w].stage.run), Some(error), s.clock)]
               else s.db.jobs
  {
    var job := s.workers[w].job;
    if IsStarted(s.db.jobs, job) {
      UpdateKeepsIndex(s.db.jobs, job, FailureStatus(s.workers[w].stage.run), Status.Started, Some(error), s.clock);
    }
    hide IndexHolds, Stamp, FailureStatus, Clash;
  }

  lemma ResolveEdge(s: State, w: nat, error: string, commit: Commit, job: Uuid)
    requires Inv(s) && BusyAt(s.workers, w) && s.workers[w].stage.Failing?
    ensures Edge(RowAt(s.db.jobs, job), RowAt(DoResolve(s, w, error, commit).db.jobs, job), s.cfg.maxAttempts)
    ensures RowAt(DoResolve(s, w, error, commit).db.jobs, job) != RowAt(s.db.jobs, job) ==> Written(s, Resolve(w, error, commit), job)
  {
    hide Shapes, Claims, Linked, Known, Awake, Documents, Pure, Artifacts, IndexHolds, DoResolve;
    JobKnown(s, w);
    ResolveWrites(s, w, error, commit);
  }

  lemma TransactionRow(s: State, step: Step, job: Uuid)
    requires Inv(s) && Enabled(s, step) && Transaction(step)
    ensures Edge(RowAt(s.db.jobs, job), RowAt(Do(s, step).db.jobs, job), s.cfg.maxAttempts)
    ensures job in s.db.jobs && RowAt(Do(s, step).db.jobs, job) != Some(s.db.jobs[job]) ==> Written(s, step, job)
  {
    hide Inv, Written, DoClaim, DoComplete, DoResolve;
    match step
    case Claim(w, commit) => ClaimEdge(s, w, commit, job);
    case Complete(w, a, commit) => CompleteEdge(s, w, a, commit, job);
    case Resolve(w, error, commit) => ResolveEdge(s, w, error, commit, job);
  }

  lemma InsertRow(s: State, step: Step, job: Uuid)
    requires Enabled(s, step) && step.Insert?
    ensures Edge(RowAt(s.db.jobs, job), RowAt(Do(s, step).db.jobs, job), s.cfg.maxAttempts)
    ensures job in s.db.jobs ==> RowAt(Do(s, step).db.jobs, job) == Some(s.db.jobs[job])
  {
    hide DoInsert;
    InsertEdge(s, step.r, step.job, step.commit, job);
  }

  /** Every step, faults and lost commits included, moves a row along the lifecycle or leaves it alone. */
  lemma RowStep(s: State, step: Step, job: Uuid)
    requires Inv(s) && Enabled(s, step)
    ensures Edge(RowAt(s.db.jobs, job), RowAt(Do(s, step).db.jobs, job), s.cfg.maxAttempts)
    ensures job in s.db.jobs && RowAt(Do(s, step).db.jobs, job) != Some(s.db.jobs[job]) ==> Written(s, step, job)
  {
    hide Inv, Do, Enabled, Written;
    if Transaction(step) { TransactionRow(s, step, job); }
    else if step.Insert? { InsertRow(s, step, job); }
    else { JobsFrame(s, step); }
  }

  lemma InsertEdge(s: State, r: nat, id: Uuid, commit: Commit, job: Uuid)
    requires r in s.requests && s.requests[r].Admitted?
    ensures Edge(RowAt(s.db.jobs, job), RowAt(DoInsert(s, r, id, commit).db.jobs, job), s.cfg.maxAttempts)
    ensures job in s.db.jobs ==> RowAt(DoInsert(s, r, id, commit).db.jobs, job) == Some(s.db.jobs[job])
  {
  }

  lemma RowApply(s: State, e: Event, job: Uuid)
    requires Inv(s) && CanHappen(s, e)
    ensures Edge(RowAt(s.db.jobs, job), RowAt(Apply(s, e).db.jobs, job), s.cfg.maxAttempts)
    ensures job in s.db.jobs && RowAt(Apply(s, e).db.jobs, job) != Some(s.db.jobs[job]) ==> Written(s, e.step, job)
    ensures Apply(s, e).cfg == s.cfg && Apply(s, e).clock == e.now
  {
    hide Inv, Enabled, Do, Edge;
    InvLater(s, e.now);
    EnabledLater(s, e.now, e.step);
    RowStep(s.(clock := e.now), e.step, job);
    SameConfig(s.(clock := e.now), e.step);
  }

  ghost predicate SameSettings(s: State, t: State) { t.cfg == s.cfg && t.clock == s.clock }

  /** No step changes the settings or the time. */
  lemma SameConfig(s: State, step: Step)
    requires Enabled(s, step)
    ensures SameSettings(s, Do(s, step))
  {
    hide Do, Enabled;
    if Actor(step) == None { OthersKeepWorkers(s, step); }
    else if Transaction(step) { TransactionKeeps(s, step); }
    else { WorkerKeeps(s, step); }
  }

  // ----------------------------------------------------------------- whole runs

  ghost function Front(es: seq<Event>): (r: seq<Event>)
    requires es != []
  {
    es[..|es| - 1]
  }

  /** Every prefix of a run is a run. */
  lemma {:induction false} RunPrefix(s: State, es: seq<Event>, i: nat)
    requires Run(s, es) && i <= |es|
    ensures Run(s, es[..i])
  {
    hide CanHappen, Apply;
    if i == |es| {
      assert es[..i] == es;
    } else {
      RunPrefix(s, Front(es), i);
      assert Front(es)[..i] == es[..i];
    }
  }

  /** The successive (status, attempts) of one row along a run, repetitions dropped. */
  ghost function Lives(s: State, es: seq<Event>, job: Uuid): (path: seq<Life>)
    requires Run(s, es)
  {
    var past := if es == [] then [] else Lives(s, Front(es), job);
    match RowAt(After(s, es).db.jobs, job)
    case None => past
    case Some(row) => if past != [] && past[|past| - 1] == LifeOf(row) then past else past + [LifeOf(row)]
  }

  ghost predicate IsPath(path: seq<Life>, limit: nat)
  {
    && (path != [] ==> path[0] == Life(Queued, 0, limit))
    && (forall i :: 0 < i < |path| ==> LifeStep(path[i - 1], path[i]))
  }

  /** Position of a life on the only path that leads to it. */
  function Rank(l: Life): (r: int)
  {
    if l.status.Started? then 2 * l.attempts - 1 else 2 * l.attempts
  }

  /** Stuttering refinement: every interleaved run of the whole system, seen from one row, is a path of
      the lifecycle that starts at QUEUED with no attempts, and the path ends where the row is. */
  lemma {:induction false} RunsRefineLifecycle(cfg: Config, es: seq<Event>, job: Uuid)
    requires Valid(cfg) && Run(Initial(cfg), es)
    ensures var path := Lives(Initial(cfg), es, job);
            && IsPath(path, cfg.maxAttempts)
            && (path == [] <==> job !in After(Initial(cfg), es).db.jobs)
            && (path != [] ==> path[|path| - 1] == LifeOf(After(Initial(cfg), es).db.jobs[job]))
    ensures After(Initial(cfg), es).cfg == cfg
  {
    hide Inv, CanHappen, Apply;
    if es != [] {
      var past := Front(es);
      RunsRefineLifecycle(cfg, past, job);
      InitialInv(cfg);
      InvRun(Initial(cfg), past);
      RowApply(After(Initial(cfg), past), es[|es| - 1], job);
    }
  }

  lemma InitialInv(cfg: Config)
    requires Valid(cfg)
    ensures Inv(Initial(cfg))
  {
  }

  lemma {:induction false} PathRank(path: seq<Life>, limit: nat)
    requires IsPath(path, limit) && path != []
    ensures Rank(path[|path| - 1]) == |path| - 1
    ensures path[|path| - 1].limit == limit
  {
    if |path| > 1 {
      var shorter := path[..|path| - 1];
      PathRank(shorter, limit);
      assert LifeStep(path[|path| - 2], path[|path| - 1]);
    }
  }

  /** Bounded execution: a job changes status at most twice per allowed attempt in any run at all. */
  lemma BoundedExecution(cfg: Config, es: seq<Event>, job: Uuid)
    requires Valid(cfg) && Run(Initial(cfg), es)
    ensures |Lives(Initial(cfg), es, job)| <= 2 * cfg.maxAttempts + 1
  {
    var path, t := Lives(Initial(cfg), es, job), After(Initial(cfg), es);
    RunsRefineLifecycle(cfg, es, job);
    if path != [] {
      PathRank(path, cfg.maxAttempts);
      InitialInv(cfg);
      InvRun(Initial(cfg), es);
      ShapeOf(t, job);
    }
  }

  /** COMPLETED and FAILED absorb: in no continuation, with no fault, does the row change in any column. */
  lemma {:induction false} TerminalForever(s: State, es: seq<Event>, job: Uuid)
    requires Inv(s) && Run(s, es)
    requires job in s.db.jobs && !Active(s.db.jobs[job])
    ensures RowAt(After(s, es).db.jobs, job) == Some(s.db.jobs[job])
  {
    hide Inv, CanHappen, Apply;
    if es != [] {
      TerminalForever(s, Front(es), job);
      InvRun(s, Front(es));
      RowApply(After(s, Front(es)), es[|es| - 1], job);
    }
  }
}
