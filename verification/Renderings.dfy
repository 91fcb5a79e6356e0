/** Which version of a document the artifact object renders when its job completes, although the raw object may be
    uploaded again at any time. */
module Renderings {
  import opened Wrappers
  import opened Keys
  import opened Schema
  import opened Protocol
  import opened Ownership
  import opened Wakeups
  import opened Contents
  import opened Frames
  import opened Invariants
  import opened Lifecycle
  import Completion

  /** What a GET of the key returns. */
  function Current(objects: Objects, key: string): (content: Option<Bytes>)
  {
    if key in objects && objects[key] != [] then Some(objects[key][|objects[key]| - 1]) else None
  }

  function TargetKey(target: Target): (key: string) { ArtifactKey(target.account, target.doc) }

  /** The attempt fetched `content`, and so far went on with it: what it parsed is the parse of that content, and what it
      stored is the current artifact object. */
  ghost predicate Follows(s: State, w: nat, job: Uuid, run: Attempt, target: Target, content: Bytes)
  {
    && BusyAt(s.workers, w) && s.workers[w].job == job
    && var stage := s.workers[w].stage;
       || stage == Fetched(run, target, content)
       || stage == Parsed(run, target, s.cfg.parse(content))
       || (stage == Stored(run, target) && Current(s.objects, TargetKey(target)) == Some(s.cfg.encode(s.cfg.parse(content))))
  }

  predicate Rendering(ws: Tasks, w: nat)
  {
    BusyAt(ws, w) && (ws[w].stage.Fetched? || ws[w].stage.Parsed? || ws[w].stage.Stored?)
  }

  // ------------------------------------------------------------- who writes objects

  lemma ClientObjects(s: State, step: Step)
    requires Enabled(s, step) && Actor(step) == None && !step.Upload?
    ensures Do(s, step).objects == s.objects
  {
    hide InsertDocument, InsertJob, Returned;
  }

  lemma WorkerObjects(s: State, step: Step)
    requires Enabled(s, step) && Actor(step).Some? && !Transaction(step) && !step.Store?
    ensures Do(s, step).objects == s.objects
  {
    hide Returned, Acked, Enqueued;
  }

  /** Objects are written by uploads and by the store step of a worker. */
  lemma ObjectsFrame(s: State, step: Step)
    requires Enabled(s, step) && !step.Upload? && !step.Store?
    ensures Do(s, step).objects == s.objects
  {
    hide Do, Enabled;
    if Actor(step) == None { ClientObjects(s, step); }
    else if Transaction(step) { TransactionKeeps(s, step); }
    else { WorkerObjects(s, step); }
  }

  lemma UploadObjects(s: State, step: Step)
    requires Enabled(s, step) && step.Upload?
    ensures step.doc in s.db.docs && Do(s, step).objects == Put(s.objects, s.db.docs[step.doc].key, step.content)
    ensures Do(s, step).db == s.db
  {
    hide Put;
  }

  lemma StoreObjects(s: State, step: Step)
    requires Enabled(s, step) && step.Store?
    ensures BusyAt(s.workers, step.w) && s.workers[step.w].stage.Parsed?
    ensures var g := s.workers[step.w].stage;
            && Do(s, step).objects == Put(s.objects, TargetKey(g.target), s.cfg.encode(g.markdown))
            && Do(s, step).workers == s.workers[step.w := Busy(s.workers[step.w].job, Stored(g.run, g.target))]
            && Do(s, step).db == s.db
  {
    hide Put;
  }

  lemma DocumentKey(s: State, doc: Uuid)
    requires Inv(s) && doc in s.db.docs
    ensures s.db.docs[doc].key == RawKey(s.db.docs[doc].account, doc)
  {
    hide Shapes, Claims, Linked, Known, Awake, Pure, Artifacts, IndexHolds;
  }

  /** The versions under an artifact key are written by workers that process the document and by nobody else; each such
      write appends a rendering and changes no row.  So after a completion the current object can change only by the
      store step of a later attempt, whether or not that attempt completes. */
  lemma ArtifactObjectWrites(s: State, step: Step, account: nat, doc: Uuid)
    requires Inv(s) && Enabled(s, step)
    ensures var key, t := ArtifactKey(account, doc), Do(s, step);
            if step.Store? && s.workers[step.w].stage.target == Target(account, doc) then
              && t.db == s.db
              && t.objects == Put(s.objects, key, s.cfg.encode(s.workers[step.w].stage.markdown))
            else
              (key in t.objects <==> key in s.objects) && (key in s.objects ==> t.objects[key] == s.objects[key])
  {
    hide Do, Enabled, Inv, ArtifactKey, RawKey;
    if step.Upload? {
      UploadObjects(s, step);
      DocumentKey(s, step.doc);
      KeysDisjoint(s.db.docs[step.doc].account, step.doc, account, doc);
    } else if step.Store? {
      StoreObjects(s, step);
      var target := s.workers[step.w].stage.target;
      ArtifactKeyInjective(target.account, target.doc, account, doc);
    } else {
      ObjectsFrame(s, step);
    }
  }

  // ------------------------------------------------------------------- one attempt

  lemma SameTarget(s: State, v: nat, w: nat)
    requires Inv(s) && Rendering(s.workers, v) && Rendering(s.workers, w)
    requires s.workers[v].stage.target == s.workers[w].stage.target
    ensures v == w
  {
    hide Shapes, Linked, Known, Awake, Documents, Pure, Artifacts;
    JobKnown(s, v);
    JobKnown(s, w);
    assert SameDocument(s.db.jobs[s.workers[v].job], s.db.jobs[s.workers[w].job]);
    assert s.workers[v].job == s.workers[w].job;
    assert ClaimsJob(s.workers[v], s.workers[v].job) && ClaimsJob(s.workers[w], s.workers[v].job);
  }

  lemma OwnRendering(s: State, step: Step, w: nat, job: Uuid, run: Attempt, target: Target, content: Bytes)
    requires Enabled(s, step) && Follows(s, w, job, run, target, content) && Actor(step) == Some(w)
    requires Rendering(Do(s, step).workers, w)
    ensures Follows(Do(s, step), w, job, run, target, content)
  {
    hide CompletedTables, ArtifactKey, Returned, Acked, Enqueued;
    if step.Complete? { CompleteLeaves(s, w, step.artifact, step.commit); }
  }

  lemma CompleteLeaves(s: State, w: nat, a: Uuid, commit: Commit)
    requires BusyAt(s.workers, w) && s.workers[w].stage.Stored?
    ensures !Rendering(DoComplete(s, w, a, commit).workers, w)
  {
    hide CompletedTables;
  }

  lemma OthersRendering(s: State, step: Step, w: nat, job: Uuid, run: Attempt, target: Target, content: Bytes)
    requires Inv(s) && Enabled(s, step) && Follows(s, w, job, run, target, content) && Actor(step) != Some(w)
    ensures Follows(Do(s, step), w, job, run, target, content)
  {
    hide Do, Enabled, Inv, ArtifactKey;
    TasksFrame(s, step);
    SameConfig(s, step);
    ArtifactObjectWrites(s, step, target.account, target.doc);
    if step.Store? {
      StoreObjects(s, step);
      if s.workers[step.w].stage.target == target { SameTarget(s, step.w, w); }
    }
  }

  lemma FollowsStep(s: State, step: Step, w: nat, job: Uuid, run: Attempt, target: Target, content: Bytes)
    requires Inv(s) && Enabled(s, step) && Follows(s, w, job, run, target, content)
    requires Rendering(Do(s, step).workers, w)
    ensures Follows(Do(s, step), w, job, run, target, content)
  {
    hide Do, Enabled, Inv, Follows;
    if Actor(step) == Some(w) { OwnRendering(s, step, w, job, run, target, content); }
    else { OthersRendering(s, step, w, job, run, target, content); }
  }

  /** The worker is between fetch and completion all along the run. */
  ghost predicate Renders(s: State, es: seq<Event>, w: nat)
    requires Run(s, es)
  {
    Rendering(After(s, es).workers, w) && (es != [] ==> Renders(s, Front(es), w))
  }

  /** Until it commits, whatever is uploaded meanwhile, an attempt works on the version it fetched, and the object it has
      stored stays the current one. */
  lemma {:induction false} AttemptFollowsItsFetch(s: State, es: seq<Event>, w: nat, job: Uuid, run: Attempt, target: Target, content: Bytes)
    requires Inv(s) && Run(s, es) && Renders(s, es, w) && Follows(s, w, job, run, target, content)
    ensures Follows(After(s, es), w, job, run, target, content)
  {
    hide Inv, Do, Enabled, Follows, Rendering;
    if es != [] {
      AttemptFollowsItsFetch(s, Front(es), w, job, run, target, content);
      var p, e := After(s, Front(es)), es[|es| - 1];
      InvRun(s, Front(es));
      InvLater(p, e.now);
      EnabledLater(p, e.now, e.step);
      FollowsLater(p, e.now, w, job, run, target, content);
      FollowsStep(p.(clock := e.now), e.step, w, job, run, target, content);
    }
  }

  lemma FollowsLater(s: State, now: nat, w: nat, job: Uuid, run: Attempt, target: Target, content: Bytes)
    ensures Follows(s.(clock := now), w, job, run, target, content) == Follows(s, w, job, run, target, content)
  {
  }

  /** At the commit of a completion the current artifact object is the rendering of exactly the version that this attempt
      fetched, also when the document was uploaded again in between. */
  lemma CompletionRendersItsFetch(s: State, es: seq<Event>, e: Event, job: Uuid, run: Attempt, target: Target, content: Bytes)
    requires Inv(s) && Run(s, es) && CanHappen(After(s, es), e) && e.step.Complete?
    requires BusyAt(s.workers, e.step.w) && s.workers[e.step.w] == Busy(job, Fetched(run, target, content))
    requires Renders(s, es, e.step.w)
    requires Completion.CommitsCompletion(After(s, es).(clock := e.now), e.step)
    ensures var t := Apply(After(s, es), e);
            && job in t.db.jobs && t.db.jobs[job].status.Completed?
            && Lookup(t.db.artifacts, target.doc, Markdown) == Some((job, TargetKey(target)))
            && Current(t.objects, TargetKey(target)) == Some(s.cfg.encode(s.cfg.parse(content)))
  {
    hide Inv, Do, Enabled, Renders, Completion.CommitsCompletion, Lookup, ArtifactKey;
    var p, w := After(s, es), e.step.w;
    AttemptFollowsItsFetch(s, es, w, job, run, target, content);
    InvRun(s, es);
    InvLater(p, e.now);
    EnabledLater(p, e.now, e.step);
    var q := p.(clock := e.now);
    Completion.AllOrNothing(q, e.step);
    Completion.CompleteIs(q, e.step);
    Completion.TargetDoc(q, w);
    StoredTarget(q, w);
    RowStep(q, e.step, job);
    ObjectsFrame(q, e.step);
    RunConfig(s, es);
  }

  lemma StoredTarget(s: State, w: nat)
    requires Inv(s) && BusyAt(s.workers, w) && s.workers[w].stage.Stored?
    ensures s.workers[w].job in s.db.jobs
    ensures var row := s.db.jobs[s.workers[w].job]; s.workers[w].stage.target == Target(row.account, row.doc)
  {
    hide Shapes, Claims, Linked, Known, Awake, Documents, Pure, Artifacts, IndexHolds;
    JobKnown(s, w);
  }

  lemma {:induction false} RunConfig(s: State, es: seq<Event>)
    requires Inv(s) && Run(s, es)
    ensures After(s, es).cfg == s.cfg
  {
    hide Inv, CanHappen, Apply;
    if es != [] {
      RunConfig(s, Front(es));
      InvRun(s, Front(es));
      RowApply(After(s, Front(es)), es[|es| - 1], 0);
    }
  }
}
