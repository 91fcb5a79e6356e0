/** Completion is all or nothing, and the artifact table is a map that remembers the last completion. */
module Completion {
  import opened Wrappers
  import opened Keys
  import opened Schema
  import opened Protocol
  import opened Ownership
  import opened Wakeups
  import opened Contents
  import opened Frames
  import opened Invariants
  import opened Lifecycle

  /** The completion transaction of the step takes effect. */
  predicate CommitsCompletion(s: State, step: Step)
  {
    && step.Complete? && step.commit != Unacknowledged(false)
    && BusyAt(s.workers, step.w) && s.workers[step.w].stage.Stored?
    && CompletedTables(s.db, s.workers[step.w].job, s.workers[step.w].stage.target, step.artifact, s.clock).Ok?
  }

  lemma CompleteTables(s: State, w: nat, a: Uuid, commit: Commit)
    requires BusyAt(s.workers, w) && StageOf(s.workers, w).Stored?
    ensures var r := CompletedTables(s.db, s.workers[w].job, s.workers[w].stage.target, a, s.clock);
            DoComplete(s, w, a, commit).db == if r.Ok? && commit != Unacknowledged(false) then r.value else s.db
  {
    hide CompletedTables;
  }

  lemma ArtifactsElsewhere(s: State, step: Step)
    requires Enabled(s, step) && !step.Complete?
    ensures Do(s, step).db.artifacts == s.db.artifacts
  {
    hide Do, Enabled;
    if Actor(step) == None { OthersKeepWorkers(s, step); }
    else if Transaction(step) { TransactionArtifacts(s, step); }
    else { WorkerKeeps(s, step); }
  }

  lemma TransactionArtifacts(s: State, step: Step)
    requires Enabled(s, step) && (step.Claim? || step.Resolve?)
    ensures Do(s, step).db.artifacts == s.db.artifacts
  {
    hide DoClaim, DoResolve;
    if step.Claim? { ClaimArtifacts(s, step.w, step.commit); } else { ResolveArtifacts(s, step.w, step.error, step.commit); }
  }

  lemma ClaimArtifacts(s: State, w: nat, commit: Commit)
    requires BusyAt(s.workers, w)
    ensures DoClaim(s, w, commit).db.artifacts == s.db.artifacts
  {
    hide UpdateStatus;
  }

  lemma ResolveArtifacts(s: State, w: nat, error: string, commit: Commit)
    requires BusyAt(s.workers, w) && StageOf(s.workers, w).Failing?
    ensures DoResolve(s, w, error, commit).db.artifacts == s.db.artifacts
  {
    hide UpdateStatus;
  }

  /** The row is completed and the document's artifact names the job, in one commit. */
  ghost predicate Completes(before: Tables, after: Tables, job: Uuid)
  {
    && IsStarted(before.jobs, job)
    && job in after.jobs && after.jobs == before.jobs[job := after.jobs[job]]
    && after.jobs[job].status.Completed?
    && Lookup(after.artifacts, after.jobs[job].doc, Markdown)
       == Some((job, ArtifactKey(after.jobs[job].account, after.jobs[job].doc)))
  }

  /** No artifact row changes and no row becomes completed. */
  ghost predicate CompletesNothing(before: Tables, after: Tables)
  {
    && after.artifacts == before.artifacts
    && forall j: Uuid :: j in after.jobs && after.jobs[j].status.Completed? ==>
         j in before.jobs && before.jobs[j].status.Completed?
  }

  /** The artifact row of a document and the COMPLETED status of the job change together, in the commit of one
      completion transaction; a failed attempt, or a commit that is rolled back, leaves the table as it was. */
  lemma AllOrNothing(s: State, step: Step)
    requires Inv(s) && Enabled(s, step)
    ensures if CommitsCompletion(s, step) then Completes(s.db, Do(s, step).db, s.workers[step.w].job)
            else CompletesNothing(s.db, Do(s, step).db)
  {
    hide Inv, Do, Enabled, CompletedTables;
    if step.Complete? {
      CompleteIs(s, step);
      CompleteTables(s, step.w, step.artifact, step.commit);
      if CommitsCompletion(s, step) { CompletedOf(s, step.w, step.artifact); }
    } else {
      ArtifactsElsewhere(s, step);
      forall j: Uuid | j in Do(s, step).db.jobs && Do(s, step).db.jobs[j].status.Completed?
        ensures j in s.db.jobs && s.db.jobs[j].status.Completed?
      {
        RowStep(s, step, j);
        NotCompletedBy(s, step, j);
      }
    }
  }

  lemma CompleteIs(s: State, step: Step)
    requires Enabled(s, step) && step.Complete?
    ensures BusyAt(s.workers, step.w) && s.workers[step.w].stage.Stored?
    ensures Do(s, step) == DoComplete(s, step.w, step.artifact, step.commit)
  {
  }

  lemma CompletedOf(s: State, w: nat, a: Uuid)
    requires Inv(s) && BusyAt(s.workers, w) && s.workers[w].stage.Stored?
    requires CompletedTables(s.db, s.workers[w].job, s.workers[w].stage.target, a, s.clock).Ok?
    ensures var job := s.workers[w].job;
            var db := CompletedTables(s.db, job, s.workers[w].stage.target, a, s.clock).value;
            && IsStarted(s.db.jobs, job)
            && db.jobs == s.db.jobs[job := Stamp(s.db.jobs[job], Status.Completed, None, s.clock)]
            && Lookup(db.artifacts, s.db.jobs[job].doc, Markdown)
               == Some((job, ArtifactKey(s.db.jobs[job].account, s.db.jobs[job].doc)))
  {
    hide Shapes, Claims, Linked, Known, Awake, Documents, Pure, Artifacts, IndexHolds, CompletedTables;
    JobKnown(s, w);
    ArtifactsComplete(s.objects, s.db, s.workers[w].job, a, s.clock);
  }

  /** Only the completion step completes a row: every other write is a claim or a failure. */
  lemma NotCompletedBy(s: State, step: Step, job: Uuid)
    requires Inv(s) && Enabled(s, step) && !step.Complete?
    requires job in Do(s, step).db.jobs && Do(s, step).db.jobs[job].status.Completed?
    ensures job in s.db.jobs && s.db.jobs[job].status.Completed?
  {
    hide Inv, Do, Enabled;
    RowStep(s, step, job);
    if job in s.db.jobs && IsStarted(s.db.jobs, job) && step.Resolve? {
      ResolveIs(s, step);
      ResolveNeverCompletes(s, step.w, step.error, step.commit, job);
    }
  }

  lemma ResolveIs(s: State, step: Step)
    requires Enabled(s, step) && step.Resolve?
    ensures BusyAt(s.workers, step.w) && s.workers[step.w].stage.Failing?
    ensures Do(s, step) == DoResolve(s, step.w, step.error, step.commit)
  {
  }

  lemma ResolveNeverCompletes(s: State, w: nat, error: string, commit: Commit, job: Uuid)
    requires Inv(s) && BusyAt(s.workers, w) && s.workers[w].stage.Failing? && IsStarted(s.db.jobs, job)
    ensures job in DoResolve(s, w, error, commit).db.jobs && !DoResolve(s, w, error, commit).db.jobs[job].status.Completed?
  {
    hide Shapes, Claims, Linked, Known, Awake, Documents, Pure, Artifacts, IndexHolds, DoResolve;
    ResolveWrites(s, w, error, commit);
  }

  lemma StoredUpdates(s: State, w: nat)
    requires Inv(s) && BusyAt(s.workers, w) && s.workers[w].stage.Stored?
    ensures var job := s.workers[w].job;
            && job in s.db.jobs && s.db.jobs[job].doc in s.db.docs
            && s.workers[w].stage.target == Target(s.db.jobs[job].account, s.db.jobs[job].doc)
            && UpdateStatus(s.db.jobs, job, Status.Completed, Status.Started, None, s.clock).Ok?
  {
    hide Shapes, Claims, Linked, Known, Awake, Documents, Pure, Artifacts;
    JobKnown(s, w);
    JobUploaded(s, s.workers[w].job);
    UpdateKeepsIndex(s.db.jobs, s.workers[w].job, Status.Completed, Status.Started, None, s.clock);
  }

  /** A worker that stored its result can commit the completion unless the id drawn for the artifact row is taken by
      another document's row; when the document has an artifact already, the id does not matter. */
  lemma CompletionSucceeds(s: State, w: nat, a: Uuid)
    requires Reachable(s) && BusyAt(s.workers, w) && s.workers[w].stage.Stored?
    ensures var job, target := s.workers[w].job, s.workers[w].stage.target;
            CompletedTables(s.db, job, target, a, s.clock).Ok?
            <==> RowIdFree(s.db.artifacts, target.doc, Markdown, a)
  {
    hide Inv, UpsertArtifact, RowIdFree, UpdateStatus;
    InvReachable(s);
    StoredUpdates(s, w);
    var job, target := s.workers[w].job, s.workers[w].stage.target;
    UpsertSucceeds(s.db, Artifact(a, job, target.doc, Markdown, ArtifactKey(target.account, target.doc), s.clock));
  }

  // ----------------------------------------------------------------- whole runs

  /** The job of the last completion committed for a document. */
  ghost function LastCompletion(s: State, es: seq<Event>, doc: Uuid): (job: Option<Uuid>)
    requires Run(s, es)
  {
    if es == [] then None
    else
      var p, e := After(s, Front(es)).(clock := es[|es| - 1].now), es[|es| - 1];
      if CommitsCompletion(p, e.step) && p.workers[e.step.w].stage.target.doc == doc then Some(p.workers[e.step.w].job)
      else LastCompletion(s, Front(es), doc)
  }

  lemma LookupElsewhere(s: State, step: Step, doc: Uuid)
    requires Inv(s) && Enabled(s, step)
    requires CommitsCompletion(s, step) ==> s.workers[step.w].stage.target.doc != doc
    ensures Lookup(Do(s, step).db.artifacts, doc, Markdown) == Lookup(s.db.artifacts, doc, Markdown)
  {
    hide Inv, Do, Enabled, CompletedTables, Lookup;
    if CommitsCompletion(s, step) {
      CompleteIs(s, step);
      CompleteTables(s, step.w, step.artifact, step.commit);
      OtherLookup(s, step.w, step.artifact, doc);
    } else {
      AllOrNothing(s, step);
    }
  }

  lemma OtherLookup(s: State, w: nat, a: Uuid, doc: Uuid)
    requires Inv(s) && BusyAt(s.workers, w) && s.workers[w].stage.Stored? && s.workers[w].stage.target.doc != doc
    requires CompletedTables(s.db, s.workers[w].job, s.workers[w].stage.target, a, s.clock).Ok?
    ensures Lookup(CompletedTables(s.db, s.workers[w].job, s.workers[w].stage.target, a, s.clock).value.artifacts, doc, Markdown)
         == Lookup(s.db.artifacts, doc, Markdown)
  {
    hide Shapes, Claims, Linked, Known, Awake, Documents, Pure, IndexHolds, UpsertArtifact, Lookup;
    var g := s.workers[w].stage;
    UpsertRefinesMap(s.db, Artifact(a, s.workers[w].job, g.target.doc, Markdown,
                                    ArtifactKey(g.target.account, g.target.doc), s.clock), doc, Markdown);
  }

  lemma TargetDoc(s: State, w: nat)
    requires Inv(s) && BusyAt(s.workers, w) && s.workers[w].stage.Stored?
    ensures s.workers[w].job in s.db.jobs && s.workers[w].stage.target.doc == s.db.jobs[s.workers[w].job].doc
  {
    hide Shapes, Claims, Linked, Known, Awake, Documents, Pure, Artifacts, IndexHolds;
    JobKnown(s, w);
  }

  /** Over any run the artifact of a document is the one its most recently completed job wrote. */
  lemma {:induction false} ArtifactIsLastCompletion(cfg: Config, es: seq<Event>, doc: Uuid)
    requires Valid(cfg) && Run(Initial(cfg), es)
    ensures var t := After(Initial(cfg), es);
            match LastCompletion(Initial(cfg), es, doc)
            case None => Lookup(t.db.artifacts, doc, Markdown) == None
            case Some(job) =>
              && job in t.db.jobs && t.db.jobs[job].status.Completed? && t.db.jobs[job].doc == doc
              && Lookup(t.db.artifacts, doc, Markdown) == Some((job, ArtifactKey(t.db.jobs[job].account, doc)))
  {
    hide Inv, Do, Enabled, Lookup, CommitsCompletion;
    if es == [] {
      EmptyLookup(doc);
    } else {
      ArtifactIsLastCompletion(cfg, Front(es), doc);
      InitialInv(cfg);
      InvRun(Initial(cfg), Front(es));
      var p, e := After(Initial(cfg), Front(es)), es[|es| - 1];
      var q := p.(clock := e.now);
      InvLater(p, e.now);
      EnabledLater(p, e.now, e.step);
      CompletionStep(q, e.step, doc);
      match LastCompletion(Initial(cfg), Front(es), doc)
      case None =>
      case Some(job) => RowStep(q, e.step, job);
    }
  }

  lemma EmptyLookup(doc: Uuid)
    ensures Lookup([], doc, Markdown) == None
  {
  }

  lemma CompletionStep(s: State, step: Step, doc: Uuid)
    requires Inv(s) && Enabled(s, step)
    ensures if CommitsCompletion(s, step) && s.workers[step.w].stage.target.doc == doc then
              var job, t := s.workers[step.w].job, Do(s, step);
              && job in t.db.jobs && t.db.jobs[job].status.Completed? && t.db.jobs[job].doc == doc
              && Lookup(t.db.artifacts, doc, Markdown) == Some((job, ArtifactKey(t.db.jobs[job].account, doc)))
            else Lookup(Do(s, step).db.artifacts, doc, Markdown) == Lookup(s.db.artifacts, doc, Markdown)
  {
    hide Inv, Do, Enabled, Lookup, CompletedTables;
    if CommitsCompletion(s, step) && s.workers[step.w].stage.target.doc == doc {
      AllOrNothing(s, step);
      TargetDoc(s, step.w);
      RowStep(s, step, s.workers[step.w].job);
    } else {
      LookupElsewhere(s, step, doc);
    }
  }

  /** Rows keep their place, their id and their creation time. */
  ghost predicate SameRows(before: seq<Artifact>, after: seq<Artifact>)
  {
    && |before| <= |after|
    && forall i :: 0 <= i < |before| ==>
         && after[i].id == before[i].id
         && after[i].createdAt == before[i].createdAt
         && after[i].doc == before[i].doc
         && after[i].kind == before[i].kind
  }

  lemma SameRowsStep(s: State, step: Step)
    requires Inv(s) && Enabled(s, step)
    ensures SameRows(s.db.artifacts, Do(s, step).db.artifacts)
  {
    hide Inv, Do, Enabled, CompletedTables;
    if CommitsCompletion(s, step) {
      CompleteIs(s, step);
      CompleteTables(s, step.w, step.artifact, step.commit);
      UpsertSameRows(s, step.w, step.artifact);
    } else {
      AllOrNothing(s, step);
    }
  }

  lemma UpsertSameRows(s: State, w: nat, a: Uuid)
    requires Inv(s) && BusyAt(s.workers, w) && s.workers[w].stage.Stored?
    requires CompletedTables(s.db, s.workers[w].job, s.workers[w].stage.target, a, s.clock).Ok?
    ensures SameRows(s.db.artifacts, CompletedTables(s.db, s.workers[w].job, s.workers[w].stage.target, a, s.clock).value.artifacts)
  {
    hide Shapes, Claims, Linked, Known, Awake, Documents, Pure, IndexHolds, UpsertArtifact;
    var g := s.workers[w].stage;
    UpsertKeepsRows(s.db, Artifact(a, s.workers[w].job, g.target.doc, Markdown,
                                   ArtifactKey(g.target.account, g.target.doc), s.clock));
  }

  /** No continuation loses an artifact row, changes its id or creation time, or makes a second row for a
      (document, type). */
  lemma {:induction false} ArtifactRowsStay(s: State, es: seq<Event>)
    requires Inv(s) && Run(s, es)
    ensures SameRows(s.db.artifacts, After(s, es).db.artifacts)
    ensures UniqueArtifacts(After(s, es).db.artifacts)
  {
    hide Inv, Do, Enabled, UniqueArtifacts;
    InvRun(s, es);
    UniqueOf(After(s, es));
    if es != [] {
      ArtifactRowsStay(s, Front(es));
      InvRun(s, Front(es));
      var p, e := After(s, Front(es)), es[|es| - 1];
      InvLater(p, e.now);
      EnabledLater(p, e.now, e.step);
      SameRowsStep(p.(clock := e.now), e.step);
    }
  }

  lemma UniqueOf(s: State)
    requires Inv(s)
    ensures UniqueArtifacts(s.db.artifacts)
  {
    hide Shapes, Claims, Linked, Known, Awake, Documents, Pure, IndexHolds, UniqueArtifacts;
  }
}
