/** Documents, stored objects and artifact rows: what is under which key, and where it came from. */
module Contents {
  import opened Wrappers
  import opened Keys
  import opened Schema
  import opened Protocol
  import opened Ownership
  import opened Wakeups

  /** The document exists, belongs to the account, and was uploaded. */
  predicate Uploaded(docs: map<Uuid, Document>, objects: Objects, account: nat, doc: Uuid)
  {
    doc in docs && docs[doc] == Document(account, RawKey(account, doc)) && RawKey(account, doc) in objects
  }

  ghost predicate Documents(docs: map<Uuid, Document>, objects: Objects, jobs: Jobs, rs: Requests)
  {
    && (forall d: Uuid :: d in docs ==> docs[d].key == RawKey(docs[d].account, d))
    && (forall k :: k in objects ==> objects[k] != [])
    && (forall j: Uuid :: j in jobs ==> Uploaded(docs, objects, jobs[j].account, jobs[j].doc))
    && (forall r :: r in rs && !rs[r].Inserted? ==> Uploaded(docs, objects, rs[r].account, rs[r].doc))
  }

  /** `output` is what the pipeline makes of one of the uploaded versions. */
  ghost predicate Rendered(cfg: Config, raws: seq<Bytes>, output: Bytes)
  {
    exists raw :: raw in raws && output == cfg.encode(cfg.parse(raw))
  }

  ghost predicate Derived(cfg: Config, objects: Objects, account: nat, doc: Uuid)
  {
    ArtifactKey(account, doc) in objects ==>
      && RawKey(account, doc) in objects
      && forall v :: v in objects[ArtifactKey(account, doc)] ==> Rendered(cfg, objects[RawKey(account, doc)], v)
  }

  /** What a worker carries from stage to stage belongs to its job's document. */
  ghost predicate Carries(cfg: Config, objects: Objects, row: Job, stage: Stage)
  {
    match stage
    case Fetched(_, target, content) =>
      && target == Target(row.account, row.doc)
      && RawKey(row.account, row.doc) in objects && content in objects[RawKey(row.account, row.doc)]
    case Parsed(_, target, markdown) =>
      && target == Target(row.account, row.doc)
      && RawKey(row.account, row.doc) in objects
      && exists raw :: raw in objects[RawKey(row.account, row.doc)] && markdown == cfg.parse(raw)
    case Stored(_, target) =>
      target == Target(row.account, row.doc) && ArtifactKey(row.account, row.doc) in objects
    case _ => true
  }

  ghost predicate Pure(cfg: Config, objects: Objects, jobs: Jobs, ws: Tasks)
  {
    && (forall a: nat, d: Uuid :: Derived(cfg, objects, a, d))
    && (forall w :: w in ws && ws[w].Busy? && ws[w].job in jobs ==> Carries(cfg, objects, jobs[ws[w].job], ws[w].stage))
  }

  /** An artifact row names a completed job of its document, and the object it points to exists. */
  predicate Backed(objects: Objects, jobs: Jobs, a: Artifact)
  {
    && a.job in jobs && jobs[a.job].status.Completed? && jobs[a.job].doc == a.doc
    && a.key == ArtifactKey(jobs[a.job].account, a.doc)
    && a.key in objects
  }

  ghost predicate Artifacts(objects: Objects, jobs: Jobs, rows: seq<Artifact>)
  {
    && UniqueArtifacts(rows)
    && (forall a :: a in rows ==> Backed(objects, jobs, a))
    && (forall j: Uuid :: j in jobs && jobs[j].status.Completed? ==> FindArtifact(rows, jobs[j].doc, Markdown).Some?)
  }

  // ------------------------------------------------------------------ one PUT

  /** A PUT keeps every version of every key. */
  lemma PutKeeps(objects: Objects, key: string, content: Bytes)
    ensures forall k :: k in objects ==> k in Put(objects, key, content)
    ensures forall k, v: Bytes :: k in objects && v in objects[k] ==> v in Put(objects, key, content)[k]
    ensures forall k :: k != key && k in Put(objects, key, content) ==> k in objects && Put(objects, key, content)[k] == objects[k]
    ensures forall v: Bytes :: v in Put(objects, key, content)[key] ==> v == content || (key in objects && v in objects[key])
  {
  }

  lemma CarriesKept(cfg: Config, objects: Objects, key: string, content: Bytes, row: Job, stage: Stage)
    requires Carries(cfg, objects, row, stage)
    ensures Carries(cfg, Put(objects, key, content), row, stage)
  {
    PutKeeps(objects, key, content);
  }

  lemma DocumentsPut(docs: map<Uuid, Document>, objects: Objects, jobs: Jobs, rs: Requests, key: string, content: Bytes)
    requires Documents(docs, objects, jobs, rs)
    ensures Documents(docs, Put(objects, key, content), jobs, rs)
  {
  }

  lemma ArtifactsPut(objects: Objects, jobs: Jobs, rows: seq<Artifact>, key: string, content: Bytes)
    requires Artifacts(objects, jobs, rows)
    ensures Artifacts(Put(objects, key, content), jobs, rows)
  {
    forall a | a in rows ensures Backed(Put(objects, key, content), jobs, a) {
      assert Backed(objects, jobs, a);
    }
  }

  /** An upload only adds a version that later renderings may use. */
  lemma PureUpload(cfg: Config, objects: Objects, jobs: Jobs, ws: Tasks, account: nat, doc: Uuid, content: Bytes)
    requires Pure(cfg, objects, jobs, ws)
    ensures Pure(cfg, Put(objects, RawKey(account, doc), content), jobs, ws)
  {
    var key := RawKey(account, doc);
    var objects' := Put(objects, key, content);
    PutKeeps(objects, key, content);
    forall a: nat, d: Uuid ensures Derived(cfg, objects', a, d) {
      KeysDisjoint(account, doc, a, d);
      assert Derived(cfg, objects, a, d);
    }
    forall w | w in ws && ws[w].Busy? && ws[w].job in jobs
      ensures Carries(cfg, objects', jobs[ws[w].job], ws[w].stage)
    {
      CarriesKept(cfg, objects, key, content, jobs[ws[w].job], ws[w].stage);
    }
  }

  /** Writing an artifact object touches the artifact key of one document, and writes a rendering of it. */
  lemma PureStore(cfg: Config, objects: Objects, jobs: Jobs, ws: Tasks, w: nat)
    requires Pure(cfg, objects, jobs, ws)
    requires w in ws && ws[w].Busy? && ws[w].job in jobs && ws[w].stage.Parsed?
    ensures var g := ws[w].stage;
            Pure(cfg, Put(objects, ArtifactKey(g.target.account, g.target.doc), cfg.encode(g.markdown)), jobs,
                 ws[w := Busy(ws[w].job, Stored(g.run, g.target))])
  {
    var g, job := ws[w].stage, ws[w].job;
    var key, content := ArtifactKey(g.target.account, g.target.doc), cfg.encode(g.markdown);
    var objects', ws' := Put(objects, key, content), ws[w := Busy(job, Stored(g.run, g.target))];
    PutKeeps(objects, key, content);
    assert Carries(cfg, objects, jobs[job], g);
    forall a: nat, d: Uuid ensures Derived(cfg, objects', a, d) {
      KeysDisjoint(a, d, g.target.account, g.target.doc);
      ArtifactKeyInjective(a, d, g.target.account, g.target.doc);
      assert Derived(cfg, objects, a, d);
    }
    forall v | v in ws' && ws'[v].Busy? && ws'[v].job in jobs
      ensures Carries(cfg, objects', jobs[ws'[v].job], ws'[v].stage)
    {
      if v != w { CarriesKept(cfg, objects, key, content, jobs[ws[v].job], ws[v].stage); }
    }
  }

  /** A worker that moves without touching objects carries on what it had. */
  lemma PureMove(cfg: Config, objects: Objects, jobs: Jobs, ws: Tasks, w: nat, task: Option<Task>)
    requires Pure(cfg, objects, jobs, ws)
    requires task.Some? && task.value.Busy? && task.value.job in jobs ==>
               Carries(cfg, objects, jobs[task.value.job], task.value.stage)
    ensures Pure(cfg, objects, jobs, With(ws, w, task))
  {
  }

  /** Rows never change account or document. */
  lemma PureWrite(cfg: Config, objects: Objects, jobs: Jobs, ws: Tasks, job: Uuid, row: Job)
    requires Pure(cfg, objects, jobs, ws)
    requires job in jobs ==> SameDocument(jobs[job], row)
    requires forall w :: w in ws && ws[w].Busy? ==> ws[w].job in jobs
    ensures Pure(cfg, objects, jobs[job := row], ws)
  {
    var jobs' := jobs[job := row];
    forall w | w in ws && ws[w].Busy? && ws[w].job in jobs'
      ensures Carries(cfg, objects, jobs'[ws[w].job], ws[w].stage)
    {
      assert Carries(cfg, objects, jobs[ws[w].job], ws[w].stage);
    }
  }

  lemma DocumentsWrite(docs: map<Uuid, Document>, objects: Objects, jobs: Jobs, rs: Requests, job: Uuid, row: Job)
    requires Documents(docs, objects, jobs, rs)
    requires job in jobs ==> SameDocument(jobs[job], row)
    requires Uploaded(docs, objects, row.account, row.doc)
    ensures Documents(docs, objects, jobs[job := row], rs)
  {
  }

  /** No write of a row that is not completed, before or after, concerns the artifact table. */
  lemma ArtifactsWrite(objects: Objects, jobs: Jobs, rows: seq<Artifact>, job: Uuid, row: Job)
    requires Artifacts(objects, jobs, rows)
    requires job in jobs ==> !jobs[job].status.Completed?
    requires !row.status.Completed?
    ensures Artifacts(objects, jobs[job := row], rows)
  {
    forall a | a in rows ensures Backed(objects, jobs[job := row], a) {
      assert Backed(objects, jobs, a);
    }
  }

  /** After an upsert every row is the new one or carries what an old row carried. */
  lemma UpsertBacked(objects: Objects, t: Tables, row: Artifact, jobs: Jobs)
    requires UpsertArtifact(t, row).Ok?
    requires forall a :: a in t.artifacts ==> Backed(objects, jobs, a)
    requires Backed(objects, jobs, row)
    ensures forall a :: a in UpsertArtifact(t, row).value ==> Backed(objects, jobs, a)
  {
    var rows := UpsertArtifact(t, row).value;
    forall a | a in rows ensures Backed(objects, jobs, a) {
      var i :| 0 <= i < |rows| && rows[i] == a;
      if i < |t.artifacts| { assert t.artifacts[i] in t.artifacts; }
    }
  }

  /** The completion transaction: the row of the document now names this job, and the job is completed. */
  lemma ArtifactsComplete(objects: Objects, t: Tables, job: Uuid, artifact: Uuid, now: nat)
    requires Artifacts(objects, t.jobs, t.artifacts)
    requires job in t.jobs && !t.jobs[job].status.Completed?
    requires ArtifactKey(t.jobs[job].account, t.jobs[job].doc) in objects
    requires CompletedTables(t, job, Target(t.jobs[job].account, t.jobs[job].doc), artifact, now).Ok?
    ensures var db := CompletedTables(t, job, Target(t.jobs[job].account, t.jobs[job].doc), artifact, now).value;
            && db.docs == t.docs
            && db.jobs == t.jobs[job := Stamp(t.jobs[job], Status.Completed, None, now)]
            && Artifacts(objects, db.jobs, db.artifacts)
            && Lookup(db.artifacts, t.jobs[job].doc, Markdown)
               == Some((job, ArtifactKey(t.jobs[job].account, t.jobs[job].doc)))
  {
    var account, doc := t.jobs[job].account, t.jobs[job].doc;
    var db := CompletedTables(t, job, Target(account, doc), artifact, now).value;
    var row := Artifact(artifact, job, doc, Markdown, ArtifactKey(account, doc), now);
    UpsertKeepsRows(t, row);
    UpsertRefinesMap(t, row, doc, Markdown);
    forall a | a in t.artifacts ensures Backed(objects, db.jobs, a) {
      assert Backed(objects, t.jobs, a);
    }
    UpsertBacked(objects, t, row, db.jobs);
    forall j: Uuid | j in db.jobs && db.jobs[j].status.Completed?
      ensures FindArtifact(db.artifacts, db.jobs[j].doc, Markdown).Some?
    {
      UpsertRefinesMap(t, row, db.jobs[j].doc, Markdown);
      if j != job { assert FindArtifact(t.artifacts, t.jobs[j].doc, Markdown).Some?; }
    }
  }
}
