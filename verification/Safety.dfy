/** The guarantees of every reachable state. */
module Safety {
  import opened Wrappers
  import opened Keys
  import opened Schema
  import opened Protocol
  import opened Ownership
  import opened Wakeups
  import opened Contents
  import opened Invariants
  import opened Permanence
  import opened Recovery

  // ---------------------------------------------------------- no lost wake-up

  /** A QUEUED job that lost no wake-up has a message that will be acted on, a worker about to re-enqueue it, or
      a request about to publish it; so some continuation claims it. */
  lemma NoLostWakeup(s: State, job: Uuid)
    requires Reachable(s) && IsQueued(s.db.jobs, job) && job !in s.stranded
    ensures Witness(s.broker, s.workers, s.requests, job)
    ensures Claimable(s, job)
  {
    InvReachable(s);
    AwakeAt(s, job);
    if Forgotten(s, job) { WitnessRemembers(s, job); }
    ClaimableUnlessForgotten(s, job);
  }

  lemma AwakeAt(s: State, job: Uuid)
    requires Inv(s) && IsQueued(s.db.jobs, job) && job !in s.stranded
    ensures Witness(s.broker, s.workers, s.requests, job)
  {
    hide Shapes, Claims, Linked, Known, Documents, Pure, Artifacts, IndexHolds;
  }

  lemma WitnessRemembers(s: State, job: Uuid)
    requires Witness(s.broker, s.workers, s.requests, job)
    ensures !Forgotten(s, job)
  {
  }

  // --------------------------------------------------------------- ownership

  /** `process` is running: the stages between the claim and the completion transaction. */
  predicate Processing(stage: Stage)
  {
    stage.Claimed? || stage.Fetched? || stage.Parsed? || stage.Stored?
  }

  predicate Processes(s: State, w: nat)
  {
    BusyAt(s.workers, w) && Processing(s.workers[w].stage)
  }

  /** While a worker processes a job the row is STARTED with the worker's own attempt number, and no other
      worker claims, processes, completes or fails that job, however stale the read before its claim was. */
  lemma ExclusiveOwnership(s: State, w: nat)
    requires Reachable(s) && Processes(s, w)
    ensures var job := s.workers[w].job;
            && IsStarted(s.db.jobs, job)
            && s.db.jobs[job].attempts == s.workers[w].stage.run.number
            && s.db.jobs[job].maxAttempts == s.workers[w].stage.run.limit
            && forall v: nat :: HoldsClaim(s.workers, v, job) ==> v == w
  {
    hide Shapes, Linked, Known, Awake, Documents, Pure, Artifacts, IndexHolds;
    InvReachable(s);
    JobKnown(s, w);
  }

  /** A STARTED row that was not orphaned is being worked on right now. */
  lemma StartedHasOwner(s: State, job: Uuid)
    requires Reachable(s) && IsStarted(s.db.jobs, job)
    ensures job in s.orphaned <==> forall w: nat :: !HoldsClaim(s.workers, w, job)
  {
    hide Shapes, Linked, Known, Awake, Documents, Pure, Artifacts, IndexHolds;
    InvReachable(s);
  }

  // --------------------------------------------------------- serial documents

  /** At most one job of a document is active, and at most one worker processes a document. */
  lemma SerialDocuments(s: State, v: nat, w: nat)
    requires Reachable(s) && Processes(s, v) && Processes(s, w)
    requires SameDocument(s.db.jobs[JobOf(s, v)], s.db.jobs[JobOf(s, w)])
    ensures v == w
  {
    hide Inv, HoldsClaim;
    ExclusiveOwnership(s, v);
    ExclusiveOwnership(s, w);
    IndexReachable(s);
    ProcessorsClaim(s, v);
  }

  function JobOf(s: State, w: nat): (job: Uuid)
    requires Reachable(s) && Processes(s, w)
    ensures job in s.db.jobs
  {
    assert s.workers[w].job in s.db.jobs by { InvReachable(s); JobKnown(s, w); }
    s.workers[w].job
  }

  lemma ProcessorsClaim(s: State, w: nat)
    requires Processes(s, w)
    ensures HoldsClaim(s.workers, w, s.workers[w].job)
  {
  }

  lemma IndexReachable(s: State)
    requires Reachable(s)
    ensures IndexHolds(s.db.jobs)
  {
    hide Shapes, Claims, Linked, Known, Awake, Documents, Pure, Artifacts, IndexHolds;
    InvReachable(s);
  }

  /** None of the four status updates the code makes is ever refused by the index: each finds its expected status
      or conflicts.  The failure update conflicts exactly when the attempt had already completed the job. */
  lemma UpdatesNeverViolateIndex(s: State, w: nat, error: string)
    requires Reachable(s) && BusyAt(s.workers, w)
    ensures s.workers[w].job in s.db.jobs
    ensures s.workers[w].stage.Checked? ==>
              (UpdateStatus(s.db.jobs, s.workers[w].job, Status.Started, Status.Queued, None, s.clock).Ok?
               <==> IsQueued(s.db.jobs, s.workers[w].job))
    ensures s.workers[w].stage.Stored? ==>
              UpdateStatus(s.db.jobs, s.workers[w].job, Status.Completed, Status.Started, None, s.clock).Ok?
    ensures s.workers[w].stage.Failing? ==>
              UpdateStatus(s.db.jobs, s.workers[w].job, FailureStatus(s.workers[w].stage.run), Status.Started, Some(error), s.clock)
              == if s.db.jobs[s.workers[w].job].status.Completed? then Err(StateConflict)
                 else Ok(s.db.jobs[s.workers[w].job := Stamp(s.db.jobs[s.workers[w].job],
                           FailureStatus(s.workers[w].stage.run), Some(error), s.clock)])
  {
    hide Shapes, Claims, Linked, Known, Awake, Documents, Pure, Artifacts;
    InvReachable(s);
    JobKnown(s, w);
    var jobs, job := s.db.jobs, s.workers[w].job;
    if IsQueued(jobs, job) {
      UpdateKeepsIndex(jobs, job, Status.Started, Status.Queued, None, s.clock);
    } else if IsStarted(jobs, job) {
      UpdateKeepsIndex(jobs, job, Status.Completed, Status.Started, None, s.clock);
      if s.workers[w].stage.Failing? {
        UpdateKeepsIndex(jobs, job, FailureStatus(s.workers[w].stage.run), Status.Started, Some(error), s.clock);
      }
    }
  }

  // ------------------------------------------------ commit precedes visibility

  /** Every id a worker can meet names a committed row, and that row's document exists with the same account:
      the "job not found" branch and both not-found branches of `process` are never taken. */
  lemma NothingIsMissing(s: State, job: Uuid)
    requires Reachable(s)
    requires || job in s.broker.ready
             || (exists w :: BusyAt(s.workers, w) && s.workers[w].job == job)
             || (exists r :: PublishesAt(s.requests, r, job))
    ensures job in s.db.jobs
    ensures GetDocument(s.db.docs, s.db.jobs[job].doc, s.db.jobs[job].account).Some?
    ensures s.db.docs[s.db.jobs[job].doc].key in s.objects
  {
    hide Shapes, Owned, Exclusive, Linked, Awake, Documents, Pure, Artifacts, IndexHolds;
    InvReachable(s);
    JobUploaded(s, job);
  }

  /** So the fetch of a claimed job always finds its raw object. */
  lemma FetchSucceeds(s: State, w: nat)
    requires Reachable(s) && BusyAt(s.workers, w) && s.workers[w].stage.Claimed?
    ensures StageOf(DoFetch(s, w).workers, w).Fetched?
  {
    InvReachable(s);
    InvFetch(s, w);
  }

  // ------------------------------------------------- completion and its objects

  predicate IsCompletedOf(jobs: Jobs, job: Uuid, doc: Uuid)
  {
    job in jobs && jobs[job].status.Completed? && jobs[job].doc == doc
  }

  /** COMPLETED means the artifact row and the stored object exist, the row names a completed job of the same
      document, and every version ever stored under its key renders an uploaded version of the raw object. */
  lemma CompletedHasArtifact(s: State, job: Uuid)
    requires Reachable(s) && job in s.db.jobs && s.db.jobs[job].status.Completed?
    ensures var account, doc := s.db.jobs[job].account, s.db.jobs[job].doc;
            var key := ArtifactKey(account, doc);
            && Lookup(s.db.artifacts, doc, Markdown).Some?
            && Lookup(s.db.artifacts, doc, Markdown).value.1 == key
            && IsCompletedOf(s.db.jobs, Lookup(s.db.artifacts, doc, Markdown).value.0, doc)
            && key in s.objects && s.objects[key] != []
            && RawKey(account, doc) in s.objects
            && forall v :: v in s.objects[key] ==> Rendered(s.cfg, s.objects[RawKey(account, doc)], v)
  {
    hide Shapes, Claims, Linked, Known, Awake, Documents, Pure, Artifacts, IndexHolds;
    InvReachable(s);
    var account, doc := s.db.jobs[job].account, s.db.jobs[job].doc;
    ArtifactOf(s, job);
    var i := FindArtifact(s.db.artifacts, doc, Markdown).value;
    var a := s.db.artifacts[i];
    JobUploaded(s, job);
    JobUploaded(s, a.job);
    DerivedOf(s, account, doc);
  }

  lemma ArtifactOf(s: State, job: Uuid)
    requires Inv(s) && job in s.db.jobs && s.db.jobs[job].status.Completed?
    ensures var f := FindArtifact(s.db.artifacts, s.db.jobs[job].doc, Markdown);
            f.Some? && Backed(s.objects, s.db.jobs, s.db.artifacts[f.value])
  {
    hide Shapes, Claims, Linked, Known, Awake, Documents, Pure, IndexHolds, UniqueArtifacts;
    var f := FindArtifact(s.db.artifacts, s.db.jobs[job].doc, Markdown);
    assert s.db.artifacts[f.value] in s.db.artifacts;
  }

  lemma DerivedOf(s: State, account: nat, doc: Uuid)
    requires Inv(s)
    ensures Derived(s.cfg, s.objects, account, doc)
    ensures forall k :: k in s.objects ==> s.objects[k] != []
  {
    hide Shapes, Claims, Linked, Known, Awake, Artifacts, IndexHolds;
  }

  /** If the raw object was uploaded once, whatever is stored under the artifact key is its rendering, whichever
      attempts wrote it and whether or not they failed afterwards. */
  lemma OneUploadOneRendering(s: State, account: nat, doc: Uuid, raw: Bytes)
    requires Reachable(s)
    requires RawKey(account, doc) in s.objects && s.objects[RawKey(account, doc)] == [raw]
    ensures ArtifactKey(account, doc) in s.objects ==>
              forall v :: v in s.objects[ArtifactKey(account, doc)] ==> v == s.cfg.encode(s.cfg.parse(raw))
  {
    InvReachable(s);
    hide Inv;
    DerivedOf(s, account, doc);
  }

  /** Whatever an account can list belongs to its own document: the job, the key and the object. */
  lemma ListedBelongs(s: State, doc: Uuid, account: nat, a: Artifact)
    requires Reachable(s) && a in ListArtifacts(s.db, s.db.artifacts, doc, account)
    ensures a.job in s.db.jobs && s.db.jobs[a.job].account == account && s.db.jobs[a.job].doc == doc
    ensures s.db.jobs[a.job].status.Completed?
    ensures a.key == ArtifactKey(account, doc) && a.key in s.objects
  {
    hide Shapes, Claims, Linked, Known, Awake, Documents, Pure, IndexHolds;
    InvReachable(s);
    JobUploaded(s, a.job);
  }

  // ----------------------------------------------------------------- row shape

  /** Counters, timestamps and the error message of every row: see RowShape. */
  lemma EveryRowHasShape(s: State, job: Uuid)
    requires Reachable(s) && job in s.db.jobs
    ensures RowShape(s.db.jobs[job], s.clock)
  {
    hide Claims, Linked, Known, Awake, Documents, Pure, Artifacts, IndexHolds;
    InvReachable(s);
  }
}
