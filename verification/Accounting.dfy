/** Attempt numbers over whole runs: each committed claim is one attempt, and no two workers share one. */
module Accounting {
  import opened Wrappers
  import opened Keys
  import opened Schema
  import opened Protocol
  import opened Ownership
  import opened Wakeups
  import opened Contents
  import opened Frames
  import opened Invariants
  import opened Lifecycle

  datatype Entry = Entry(job: Uuid, attempt: nat, worker: nat)

  /** The compare-and-swap to STARTED matches its row and its transaction takes effect. */
  predicate CommitsClaim(s: State, step: Step)
  {
    && step.Claim? && step.commit != Unacknowledged(false)
    && BusyAt(s.workers, step.w) && IsQueued(s.db.jobs, s.workers[step.w].job)
  }

  /** The log entry of a step. */
  function EntryOf(s: State, step: Step): (entry: Option<Entry>)
  {
    if CommitsClaim(s, step) then
      Some(Entry(s.workers[step.w].job, s.db.jobs[s.workers[step.w].job].attempts + 1, step.w))
    else None
  }

  function Extend(log: seq<Entry>, entry: Option<Entry>): (r: seq<Entry>)
  {
    if entry.Some? then log + [entry.value] else log
  }

  /** The claims committed along a run, in order. */
  ghost function ClaimLog(s: State, es: seq<Event>): (log: seq<Entry>)
    requires Run(s, es)
  {
    if es == [] then [] else Extend(ClaimLog(s, Front(es)), EntryOf(After(s, Front(es)), es[|es| - 1].step))
  }

  function Count(log: seq<Entry>, job: Uuid): (n: nat)
  {
    if log == [] then 0 else Count(log[..|log| - 1], job) + if log[|log| - 1].job == job then 1 else 0
  }

  ghost predicate LogMatches(log: seq<Entry>, jobs: Jobs)
  {
    && (forall j: Uuid :: j in jobs ==> jobs[j].attempts == Count(log, j))
    && (forall i :: 0 <= i < |log| ==> log[i].job in jobs && 1 <= log[i].attempt <= jobs[log[i].job].attempts)
    && (forall i, k :: 0 <= i < k < |log| && log[i].job == log[k].job ==> log[i].attempt < log[k].attempt)
  }

  ghost predicate Executing(log: seq<Entry>, ws: Tasks)
  {
    forall w :: w in ws && ws[w].Busy? && Claimant(ws[w].stage) ==> Entry(ws[w].job, ws[w].stage.run.number, w) in log
  }

  lemma ClaimWrites(s: State, w: nat, commit: Commit)
    requires Inv(s) && BusyAt(s.workers, w) && s.workers[w].stage.Checked?
    ensures var job := s.workers[w].job;
            DoClaim(s, w, commit).db.jobs ==
              if IsQueued(s.db.jobs, job) && commit != Unacknowledged(false)
              then s.db.jobs[job := Stamp(s.db.jobs[job], Status.Started, None, s.clock)]
              else s.db.jobs
  {
    hide Shapes, Claims, Linked, Known, Awake, Documents, Pure, Artifacts;
    JobKnown(s, w);
  }

  /** A step adds one attempt to the row whose claim it commits, and none to any other. */
  lemma AttemptsStep(s: State, step: Step, job: Uuid)
    requires Inv(s) && Enabled(s, step) && job in Do(s, step).db.jobs
    ensures Do(s, step).db.jobs[job].attempts ==
      if job !in s.db.jobs then 0
      else s.db.jobs[job].attempts + if CommitsClaim(s, step) && s.workers[step.w].job == job then 1 else 0
  {
    hide Inv, Do;
    RowStep(s, step, job);
    if step.Claim? {
      ClaimWrites(s, step.w, step.commit);
      ClaimIs(s, step);
    }
  }

  lemma ClaimIs(s: State, step: Step)
    requires step.Claim? && Enabled(s, step)
    ensures Do(s, step) == DoClaim(s, step.w, step.commit)
    ensures BusyAt(s.workers, step.w) && s.workers[step.w].stage.Checked?
  {
  }

  /** No step but the claim makes a claimant out of a worker that was none. */
  lemma OnlyClaimsClaim(s: State, step: Step, w: nat)
    requires Enabled(s, step) && Actor(step) == Some(w) && !step.Claim?
    requires Claiming(TaskOf(Do(s, step).workers, w))
    ensures Claiming(TaskOf(s.workers, w)) && Do(s, step).workers[w].job == s.workers[w].job
  {
    hide DoComplete, DoResolve;
    if step.Complete? { CompleteJob(s, w, step.artifact, step.commit); }
    else if step.Resolve? { ResolveDrops(s, w, step.error, step.commit); }
    else { WorkerClaims(s, step, w); }
  }

  lemma WorkerClaims(s: State, step: Step, w: nat)
    requires Enabled(s, step) && Actor(step) == Some(w) && !Transaction(step)
    requires Claiming(TaskOf(Do(s, step).workers, w))
    ensures Claiming(TaskOf(s.workers, w)) && Do(s, step).workers[w].job == s.workers[w].job
  {
    hide Do, Enabled, Claiming;
    if step.Fetch? || step.Parse? || step.Store? || step.Raise? || step.SettleRaises? {
      ProcessorClaims(s, step, w);
    } else {
      NobodyClaims(s, step, w);
    }
  }

  lemma ProcessorClaims(s: State, step: Step, w: nat)
    requires Enabled(s, step) && Actor(step) == Some(w)
    requires step.Fetch? || step.Parse? || step.Store? || step.Raise? || step.SettleRaises?
    requires Claiming(TaskOf(Do(s, step).workers, w))
    ensures Claiming(TaskOf(s.workers, w)) && Do(s, step).workers[w].job == s.workers[w].job
  {
    hide Put, ArtifactKey;
  }

  lemma NobodyClaims(s: State, step: Step, w: nat)
    requires Enabled(s, step) && Actor(step) == Some(w) && !Transaction(step)
    requires !step.Fetch? && !step.Parse? && !step.Store? && !step.Raise? && !step.SettleRaises?
    ensures !Claiming(TaskOf(Do(s, step).workers, w))
  {
    hide Enqueued, Returned, Acked;
  }

  lemma ResolveDrops(s: State, w: nat, error: string, commit: Commit)
    requires BusyAt(s.workers, w) && StageOf(s.workers, w).Failing?
    ensures !Claiming(TaskOf(DoResolve(s, w, error, commit).workers, w))
  {
    hide UpdateStatus;
  }

  lemma NewClaimant(s: State, step: Step, w: nat, job: Uuid)
    requires Enabled(s, step)
    requires HoldsClaim(Do(s, step).workers, w, job) && !HoldsClaim(s.workers, w, job)
    ensures CommitsClaim(s, step) && step.w == w && s.workers[w].job == job
  {
    hide Do, Enabled;
    TasksFrame(s, step);
    if Actor(step) == Some(w) && !step.Claim? {
      OnlyClaimsClaim(s, step, w);
    } else if step.Claim? {
      ClaimIs(s, step);
      ClaimOutcome(s, step.w, step.commit);
    }
  }

  lemma ClaimOutcome(s: State, w: nat, commit: Commit)
    requires BusyAt(s.workers, w)
    ensures var t := DoClaim(s, w, commit);
            && BusyAt(t.workers, w) && t.workers[w].job == s.workers[w].job
            && (Claimant(t.workers[w].stage) ==> IsQueued(s.db.jobs, s.workers[w].job) && commit != Unacknowledged(false))
  {
  }

  // ----------------------------------------------------------------- whole runs

  lemma {:induction false} CountAbsent(log: seq<Entry>, job: Uuid)
    requires forall i :: 0 <= i < |log| ==> log[i].job != job
    ensures Count(log, job) == 0
  {
    if log != [] { CountAbsent(log[..|log| - 1], job); }
  }

  lemma LogStep(log: seq<Entry>, jobs: Jobs, jobs': Jobs, entry: Option<Entry>)
    requires LogMatches(log, jobs)
    requires forall j: Uuid :: j in jobs ==> j in jobs'
    requires entry.Some? ==> entry.value.job in jobs && entry.value.attempt == jobs[entry.value.job].attempts + 1
    requires forall j: Uuid | j in jobs' ::
               jobs'[j].attempts
               == if j !in jobs then 0 else jobs[j].attempts + if entry.Some? && entry.value.job == j then 1 else 0
    ensures LogMatches(Extend(log, entry), jobs')
  {
    var log' := Extend(log, entry);
    assert entry.Some? ==> log'[..|log'| - 1] == log;
    forall j: Uuid | j in jobs'
      ensures jobs'[j].attempts == Count(log', j)
    {
      if j !in jobs { CountAbsent(log, j); }
    }
  }

  lemma LogDo(s: State, step: Step, log: seq<Entry>)
    requires Inv(s) && Enabled(s, step)
    requires LogMatches(log, s.db.jobs)
    ensures LogMatches(Extend(log, EntryOf(s, step)), Do(s, step).db.jobs)
  {
    hide Inv, Do, Enabled, LogMatches;
    forall j: Uuid | j in s.db.jobs ensures j in Do(s, step).db.jobs {
      RowStep(s, step, j);
    }
    forall j: Uuid | j in Do(s, step).db.jobs
      ensures Do(s, step).db.jobs[j].attempts ==
        if j !in s.db.jobs then 0
        else s.db.jobs[j].attempts + if CommitsClaim(s, step) && s.workers[step.w].job == j then 1 else 0
    {
      AttemptsStep(s, step, j);
    }
    LogStep(log, s.db.jobs, Do(s, step).db.jobs, EntryOf(s, step));
  }

  lemma ExecutingDo(s: State, step: Step, log: seq<Entry>)
    requires Inv(s) && Enabled(s, step) && Inv(Do(s, step))
    requires Executing(log, s.workers)
    ensures Executing(Extend(log, EntryOf(s, step)), Do(s, step).workers)
  {
    hide Inv, Do, Enabled;
    var t := Do(s, step);
    var log' := Extend(log, EntryOf(s, step));
    forall w | w in t.workers && t.workers[w].Busy? && Claimant(t.workers[w].stage)
      ensures Entry(t.workers[w].job, t.workers[w].stage.run.number, w) in log'
    {
      var job := t.workers[w].job;
      JobKnown(t, w);
      AttemptsStep(s, step, job);
      if HoldsClaim(s.workers, w, job) {
        JobKnown(s, w);
      } else {
        NewClaimant(s, step, w, job);
      }
    }
  }

  /** Attempt accounting: `attempts` counts the claims committed over the whole run; the attempts of one job are
      numbered in increasing order, so no (job, attempt) is ever claimed twice; and whoever is processing,
      completing or failing a job is the worker that committed that very attempt. */
  lemma {:induction false} AttemptsAreClaims(cfg: Config, es: seq<Event>)
    requires Valid(cfg) && Run(Initial(cfg), es)
    ensures LogMatches(ClaimLog(Initial(cfg), es), After(Initial(cfg), es).db.jobs)
    ensures Executing(ClaimLog(Initial(cfg), es), After(Initial(cfg), es).workers)
  {
    hide Inv, Do, Enabled, LogMatches;
    if es == [] {
      EmptyLog();
    } else {
      AttemptsAreClaims(cfg, Front(es));
      InitialInv(cfg);
      InvRun(Initial(cfg), Front(es));
      var p, e := After(Initial(cfg), Front(es)), es[|es| - 1];
      var q := p.(clock := e.now);
      InvLater(p, e.now);
      EnabledLater(p, e.now, e.step);
      InvDo(q, e.step);
      LogDo(q, e.step, ClaimLog(Initial(cfg), Front(es)));
      ExecutingDo(q, e.step, ClaimLog(Initial(cfg), Front(es)));
    }
  }

  lemma EmptyLog()
    ensures LogMatches([], map[])
  {
  }

  /** No attempt is logged for two workers. */
  lemma OneEntryPerAttempt(cfg: Config, es: seq<Event>, a: Entry, b: Entry)
    requires Valid(cfg) && Run(Initial(cfg), es)
    requires a in ClaimLog(Initial(cfg), es) && b in ClaimLog(Initial(cfg), es)
    requires a.job == b.job && a.attempt == b.attempt
    ensures a.worker == b.worker
  {
    AttemptsAreClaims(cfg, es);
    var log := ClaimLog(Initial(cfg), es);
    var i, k :| 0 <= i < |log| && 0 <= k < |log| && log[i] == a && log[k] == b;
  }

  /** The log only grows along a run. */
  lemma {:induction false} LogPrefix(s: State, es: seq<Event>, i: nat)
    requires Run(s, es) && i <= |es| && Run(s, es[..i])
    ensures ClaimLog(s, es[..i]) <= ClaimLog(s, es)
  {
    hide CanHappen, Apply;
    if i == |es| {
      assert es[..i] == es;
    } else {
      assert Front(es)[..i] == es[..i];
      LogPrefix(s, Front(es), i);
    }
  }

  /** The worker claims the job with this attempt number. */
  predicate Executes(s: State, w: nat, job: Uuid, attempt: nat)
  {
    HoldsClaim(s.workers, w, job) && s.workers[w].stage.run.number == attempt
  }

  lemma ExecutorIsLogged(cfg: Config, es: seq<Event>, w: nat, job: Uuid, attempt: nat)
    requires Valid(cfg) && Run(Initial(cfg), es) && Executes(After(Initial(cfg), es), w, job, attempt)
    ensures Entry(job, attempt, w) in ClaimLog(Initial(cfg), es)
  {
    hide LogMatches, ClaimLog;
    AttemptsAreClaims(cfg, es);
  }

  /** No attempt of a job is ever executed by two workers, at the same moment or at two moments of a run. */
  lemma OneExecutorPerAttempt(cfg: Config, es: seq<Event>, i: nat, k: nat, v: nat, w: nat, job: Uuid, attempt: nat)
    requires Valid(cfg) && Run(Initial(cfg), es) && i <= |es| && k <= |es|
    requires Run(Initial(cfg), es[..i]) && Executes(After(Initial(cfg), es[..i]), v, job, attempt)
    requires Run(Initial(cfg), es[..k]) && Executes(After(Initial(cfg), es[..k]), w, job, attempt)
    ensures v == w
  {
    hide ClaimLog, Executes, Run, After;
    ExecutorIsLogged(cfg, es[..i], v, job, attempt);
    ExecutorIsLogged(cfg, es[..k], w, job, attempt);
    LogPrefix(Initial(cfg), es, i);
    LogPrefix(Initial(cfg), es, k);
    OneEntryPerAttempt(cfg, es, Entry(job, attempt, v), Entry(job, attempt, w));
  }
}
