/** Who owns a STARTED row: the invariant of the compare-and-swap, one lemma for each way a step can change it. */
module Ownership {
  import opened Wrappers
  import opened Keys
  import opened Schema
  import opened Protocol

  /** Between the commit of a claim and the end of `process` or `_handle_failure`. */
  predicate Claimant(stage: Stage)
  {
    Unresolved(stage) || stage.Acking?
  }

  /** The worker holds a claim of the job. */
  predicate ClaimsJob(task: Task, job: Uuid)
  {
    task.Busy? && task.job == job && Claimant(task.stage)
  }

  predicate HoldsClaim(ws: Tasks, w: nat, job: Uuid)
  {
    w in ws && ClaimsJob(ws[w], job)
  }

  /** The row of a claimant is the row its own claim wrote, unless it already completed it. */
  predicate ClaimMatches(row: Job, stage: Stage)
  {
    Claimant(stage) ==>
      && row.attempts == stage.run.number
      && row.maxAttempts == stage.run.limit
      && (if stage.Acking? then row.status.Completed?
          else row.status.Started? || (stage.Failing? && row.status.Completed?))
  }

  ghost predicate Matched(jobs: Jobs, ws: Tasks)
  {
    forall w :: w in ws && ws[w].Busy? ==> ws[w].job in jobs && ClaimMatches(jobs[ws[w].job], ws[w].stage)
  }

  ghost predicate Exclusive(ws: Tasks)
  {
    forall v, w, j: Uuid :: v in ws && w in ws && ClaimsJob(ws[v], j) && ClaimsJob(ws[w], j) ==> v == w
  }

  ghost predicate Owned(jobs: Jobs, ws: Tasks, orphaned: set<Uuid>)
  {
    && (forall j: Uuid :: j in orphaned ==> IsStarted(jobs, j))
    && (forall w, j: Uuid :: j in orphaned && w in ws ==> !ClaimsJob(ws[w], j))
    && (forall j: Uuid :: IsStarted(jobs, j) && j !in orphaned ==> exists w :: HoldsClaim(ws, w, j))
  }

  ghost predicate Claims(jobs: Jobs, ws: Tasks, orphaned: set<Uuid>)
  {
    Matched(jobs, ws) && Exclusive(ws) && Owned(jobs, ws, orphaned)
  }

  /** The tasks after one worker moves, rests, starts or leaves. */
  function With(ws: Tasks, w: nat, task: Option<Task>): (r: Tasks)
  {
    match task
    case Some(t) => ws[w := t]
    case None => ws - {w}
  }

  predicate Claiming(task: Option<Task>)
  {
    task.Some? && task.value.Busy? && Claimant(task.value.stage)
  }

  function TaskOf(ws: Tasks, w: nat): (o: Option<Task>)
  {
    if w in ws then Some(ws[w]) else None
  }

  /** The worker had no claim and has none. */
  lemma ClaimsApart(jobs: Jobs, ws: Tasks, orphaned: set<Uuid>, w: nat, task: Option<Task>)
    requires Claims(jobs, ws, orphaned)
    requires !Claiming(TaskOf(ws, w)) && !Claiming(task)
    requires task.Some? && task.value.Busy? ==> task.value.job in jobs
    ensures Claims(jobs, With(ws, w, task), orphaned)
  {
    var t := With(ws, w, task);
    forall j: Uuid | IsStarted(jobs, j) && j !in orphaned
      ensures exists v :: HoldsClaim(t, v, j)
    {
      var v :| HoldsClaim(ws, v, j);
      assert HoldsClaim(t, v, j);
    }
  }

  /** The worker keeps its claim and moves on. */
  lemma ClaimsContinue(jobs: Jobs, ws: Tasks, orphaned: set<Uuid>, w: nat, stage: Stage)
    requires Claims(jobs, ws, orphaned)
    requires w in ws && Claiming(Some(ws[w])) && Claimant(stage)
    requires ClaimMatches(jobs[ws[w].job], stage)
    ensures Claims(jobs, With(ws, w, Some(Busy(ws[w].job, stage))), orphaned)
  {
    var t := With(ws, w, Some(Busy(ws[w].job, stage)));
    forall j: Uuid | IsStarted(jobs, j) && j !in orphaned
      ensures exists v :: HoldsClaim(t, v, j)
    {
      var v :| HoldsClaim(ws, v, j);
      assert HoldsClaim(t, v, j);
    }
  }

  /** The worker drops its claim, and the row is not left STARTED without being counted as orphaned. */
  lemma ClaimsDrop(jobs: Jobs, ws: Tasks, orphaned: set<Uuid>, w: nat, task: Option<Task>, more: set<Uuid>)
    requires Claims(jobs, ws, orphaned)
    requires Claiming(TaskOf(ws, w)) && !Claiming(task)
    requires task.Some? && task.value.Busy? ==> task.value.job in jobs
    requires more == if IsStarted(jobs, ws[w].job) then {ws[w].job} else {}
    ensures Claims(jobs, With(ws, w, task), orphaned + more)
  {
    var t := With(ws, w, task);
    forall j: Uuid | IsStarted(jobs, j) && j !in orphaned + more
      ensures exists v :: HoldsClaim(t, v, j)
    {
      var v :| HoldsClaim(ws, v, j);
      assert HoldsClaim(t, v, j);
    }
  }

  /** A row no worker claims is written: a new row, or a QUEUED row whose claim is won and perhaps lost again. */
  lemma ClaimsWrite(jobs: Jobs, ws: Tasks, orphaned: set<Uuid>, job: Uuid, row: Job, more: set<Uuid>)
    requires Claims(jobs, ws, orphaned)
    requires job !in jobs || jobs[job].status.Queued?
    requires more == if row.status.Started? then {job} else {}
    ensures Claims(jobs[job := row], ws, orphaned + more)
  {
    var jobs' := jobs[job := row];
    assert forall w :: w in ws ==> !ClaimsJob(ws[w], job);
    forall j: Uuid | IsStarted(jobs', j) && j !in orphaned + more
      ensures exists v :: HoldsClaim(ws, v, j)
    {
      assert IsStarted(jobs, j);
    }
  }

  /** The compare-and-swap wins: the QUEUED row becomes the winner's, whatever it had read before. */
  lemma ClaimsAcquire(jobs: Jobs, ws: Tasks, orphaned: set<Uuid>, w: nat, row: Job, stage: Stage)
    requires Claims(jobs, ws, orphaned)
    requires BusyAt(ws, w) && !Claiming(TaskOf(ws, w)) && jobs[ws[w].job].status.Queued?
    requires row.status.Started? && Claimant(stage) && ClaimMatches(row, stage)
    ensures Claims(jobs[ws[w].job := row], With(ws, w, Some(Busy(ws[w].job, stage))), orphaned)
  {
    var job := ws[w].job;
    var jobs', t := jobs[job := row], With(ws, w, Some(Busy(job, stage)));
    assert forall v :: v in ws ==> !ClaimsJob(ws[v], job);
    assert HoldsClaim(t, w, job);
    forall j: Uuid | IsStarted(jobs', j) && j !in orphaned
      ensures exists v :: HoldsClaim(t, v, j)
    {
      if j != job {
        var v :| HoldsClaim(ws, v, j);
        assert HoldsClaim(t, v, j);
      }
    }
  }

  /** The owner writes its row: it completes it and keeps the claim, or resolves it and drops the claim. */
  lemma ClaimsResolve(jobs: Jobs, ws: Tasks, orphaned: set<Uuid>, w: nat, row: Job, stage: Stage)
    requires Claims(jobs, ws, orphaned)
    requires w in ws && Claiming(Some(ws[w])) && jobs[ws[w].job].status.Started?
    requires !row.status.Started? && ClaimMatches(row, stage)
    ensures Claims(jobs[ws[w].job := row], With(ws, w, Some(Busy(ws[w].job, stage))), orphaned)
  {
    var job := ws[w].job;
    var jobs', t := jobs[job := row], With(ws, w, Some(Busy(job, stage)));
    assert HoldsClaim(ws, w, job);
    assert forall v :: v in ws && v != w ==> !ClaimsJob(ws[v], job);
    forall j: Uuid | IsStarted(jobs', j) && j !in orphaned
      ensures exists v :: HoldsClaim(t, v, j)
    {
      var v :| HoldsClaim(ws, v, j);
      assert HoldsClaim(t, v, j);
    }
  }
}
