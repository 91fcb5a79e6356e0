/** Every stamp and every error text in a row was put there by one event of the run, at the time of that event. */
module Histories {
  import opened Wrappers
  import opened Keys
  import opened Schema
  import opened Protocol
  import opened Ownership
  import opened Wakeups
  import opened Contents
  import opened Frames
  import opened Invariants
  import opened Lifecycle
  import opened Accounting
  import opened Completion

  /** What a step may write into a row: the request's new row, or the stamps of one status update. */
  ghost predicate StampedBy(s: State, step: Step, a: Option<Job>, b: Option<Job>)
  {
    || b == a
    || (a.None? && step.Insert? && step.r in s.requests && s.requests[step.r].Admitted?
        && b == Some(NewJob(s.requests[step.r].account, s.requests[step.r].doc, s.cfg.maxAttempts, s.clock)))
    || (a.Some? && b.Some? &&
        match step
        case Claim(_, _) => b.value == Stamp(a.value, Status.Started, None, s.clock)
        case Complete(_, _, _) => b.value == Stamp(a.value, Status.Completed, None, s.clock)
        case Resolve(_, error, _) =>
          b.value == Stamp(a.value, Status.Queued, Some(error), s.clock)
          || b.value == Stamp(a.value, Status.Failed, Some(error), s.clock)
        case _ => false)
  }

  lemma StampedStep(s: State, step: Step, job: Uuid)
    requires Inv(s) && Enabled(s, step)
    ensures StampedBy(s, step, RowAt(s.db.jobs, job), RowAt(Do(s, step).db.jobs, job))
  {
    hide Inv, Do, Enabled, Stamp, CompletedTables;
    if step.Claim? {
      ClaimIs(s, step);
      ClaimWrites(s, step.w, step.commit);
    } else if step.Complete? {
      CompleteIs(s, step);
      CompleteTables(s, step.w, step.artifact, step.commit);
      if CommitsCompletion(s, step) { CompletedOf(s, step.w, step.artifact); }
    } else if step.Resolve? {
      ResolveIs(s, step);
      IndexOf(s);
      ResolveWrites(s, step.w, step.error, step.commit);
    } else if step.Insert? {
      InsertStamps(s, step, job);
    } else {
      JobsFrame(s, step);
    }
  }

  lemma IndexOf(s: State)
    requires Inv(s)
    ensures IndexHolds(s.db.jobs)
  {
    hide Shapes, Claims, Linked, Known, Awake, Documents, Pure, Artifacts;
  }

  lemma InsertStamps(s: State, step: Step, job: Uuid)
    requires Enabled(s, step) && step.Insert?
    ensures StampedBy(s, step, RowAt(s.db.jobs, job), RowAt(Do(s, step).db.jobs, job))
  {
    hide Stamp, Clash;
  }

  /** The times at which a row was inserted and last entered each status, and the text of its last failure. */
  datatype History = History(
    created: Option<nat>, queued: Option<nat>, started: Option<nat>, completed: Option<nat>, failed: Option<nat>,
    error: Option<string>)

  /** One event adds to the history of a row that it inserts or moves to another status. */
  function Extended(h: History, e: Event, before: Option<Job>, after: Option<Job>): (r: History)
  {
    if after == before || after.None? then h
    else if before.None? then h.(created := Some(e.now), queued := Some(e.now))
    else
      var t := if e.step.Resolve? then h.(error := Some(e.step.error)) else h;
      match after.value.status
      case Queued => t.(queued := Some(e.now))
      case Started => t.(started := Some(e.now))
      case Completed => t.(completed := Some(e.now))
      case Failed => t.(failed := Some(e.now))
  }

  ghost function HistoryOf(s: State, es: seq<Event>, job: Uuid): (h: History)
    requires Run(s, es)
  {
    if es == [] then History(None, None, None, None, None, None)
    else
      var past := Front(es);
      Extended(HistoryOf(s, past, job), es[|es| - 1], RowAt(After(s, past).db.jobs, job), RowAt(After(s, es).db.jobs, job))
  }

  predicate Tells(r: Job, h: History)
  {
    && h.created == Some(r.createdAt) && h.queued == r.queuedAt && h.started == r.startedAt && h.started == r.lastAttemptAt
    && h.completed == r.completedAt && h.failed == r.failedAt && h.error == r.error
  }

  /** What the history says before a row exists, and then of the row. */
  ghost predicate Recounts(row: Option<Job>, h: History)
  {
    match row
    case None => h == History(None, None, None, None, None, None)
    case Some(r) => Tells(r, h)
  }

  lemma HistoryExtends(h: History, s: State, e: Event, a: Option<Job>, b: Option<Job>)
    requires StampedBy(s, e.step, a, b) && s.clock == e.now && (a.Some? ==> b.Some?) && Recounts(a, h)
    requires a.Some? && b != a ==> a.value.status != b.value.status
    ensures Recounts(b, Extended(h, e, a, b))
  {
  }

  lemma HistoryStep(h: History, s: State, e: Event, job: Uuid)
    requires Inv(s) && CanHappen(s, e) && Recounts(RowAt(s.db.jobs, job), h)
    ensures var a, b := RowAt(s.db.jobs, job), RowAt(Apply(s, e).db.jobs, job); Recounts(b, Extended(h, e, a, b))
  {
    hide Inv, Do, Enabled, StampedBy, Extended, Recounts, Written;
    InvLater(s, e.now);
    EnabledLater(s, e.now, e.step);
    StampedStep(s.(clock := e.now), e.step, job);
    RowStep(s.(clock := e.now), e.step, job);
    HistoryExtends(h, s.(clock := e.now), e, RowAt(s.db.jobs, job), RowAt(Apply(s, e).db.jobs, job));
  }

  /** A row is its history: it was created and first queued by the event that inserted it, every other stamp is the time
      of the last event that moved it into that status, and its error is the text of the last failure recorded. */
  lemma {:induction false} RowTellsItsHistory(cfg: Config, es: seq<Event>, job: Uuid)
    requires Valid(cfg) && Run(Initial(cfg), es)
    ensures Recounts(RowAt(After(Initial(cfg), es).db.jobs, job), HistoryOf(Initial(cfg), es, job))
  {
    hide Inv, Apply, CanHappen, Extended, Tells;
    if es != [] {
      RowTellsItsHistory(cfg, Front(es), job);
      InitialInv(cfg);
      InvRun(Initial(cfg), Front(es));
      HistoryStep(HistoryOf(Initial(cfg), Front(es), job), After(Initial(cfg), Front(es)), es[|es| - 1], job);
    }
  }

  /** A completion that takes effect leaves exactly the rows there were, the document's row now naming the job, or adds
      the one row of the document, with the drawn id and the time of the commit. */
  lemma CompletionWritesRow(s: State, step: Step)
    requires Inv(s) && Enabled(s, step) && CommitsCompletion(s, step)
    ensures var job, target := s.workers[step.w].job, s.workers[step.w].stage.target;
            var rows, key := s.db.artifacts, ArtifactKey(target.account, target.doc);
            && job in s.db.jobs && target == Target(s.db.jobs[job].account, s.db.jobs[job].doc)
            && Do(s, step).db.artifacts ==
                 match FindArtifact(rows, target.doc, Markdown)
                 case None => rows + [Artifact(step.artifact, job, target.doc, Markdown, key, s.clock)]
                 case Some(i) => rows[i := rows[i].(job := job, key := key)]
  {
    hide Inv, Do, Enabled, ArtifactKey;
    CompleteIs(s, step);
    CompleteTables(s, step.w, step.artifact, step.commit);
    StoredUpdates(s, step.w);
  }
}
