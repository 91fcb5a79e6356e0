/** `ProcessingService.process`: fetch, parse, store, and stage the completion transaction. */
module Processing {
  import opened Wrappers
  import opened Keys
  import opened Schema
  import opened Protocol
  import opened Ownership
  import opened Wakeups
  import opened Contents
  import opened Invariants
  import opened Scripts
  import opened Infrastructure
  import opened Effects
  import opened Cluster

  /** The row of a worker that processes it is STARTED, so its own compare-and-swap cannot conflict, and the index
      cannot refuse it. */
  lemma OwnedUpdates(s: State, w: nat, now: nat)
    requires Inv(s) && BusyAt(s.workers, w) && s.workers[w].stage.Stored?
    ensures s.workers[w].job in s.db.jobs && s.db.jobs[s.workers[w].job].doc in s.db.docs
    ensures UpdateStatus(s.db.jobs, s.workers[w].job, Completed, Started, None, now).Ok?
  {
    hide Shapes, Claims, Linked, Known, Awake, Documents, Pure, Artifacts;
    JobKnown(s, w);
    JobUploaded(s, s.workers[w].job);
    UpdateKeepsIndex(s.db.jobs, s.workers[w].job, Completed, Started, None, now);
  }

  /** The raw object of a job that a worker works on is there. */
  lemma RawObjectIsThere(s: State, w: nat)
    requires Inv(s) && BusyAt(s.workers, w)
    ensures s.workers[w].job in s.db.jobs
    ensures var row := s.db.jobs[s.workers[w].job];
            RawKey(row.account, row.doc) in s.objects && s.objects[RawKey(row.account, row.doc)] != []
  {
    hide Shapes, Claims, Linked, Known, Awake, Pure, Artifacts, IndexHolds;
    JobKnown(s, w);
    JobUploaded(s, s.workers[w].job);
  }

  /** The completion of the job could be committed in this state with the drawn id. */
  ghost predicate Free(s: State, job: Uuid, drawn: Uuid)
  {
    job in s.db.jobs && RowIdFree(s.db.artifacts, s.db.jobs[job].doc, Markdown, drawn)
  }

  class ProcessingService {
    const system: System
    const parser: DocumentParser

    constructor (system: System)
      ensures this.system == system && parser.cfg == system.cfg && parser.log == system.log
      ensures fresh(parser)
    {
      this.system := system;
      parser := new DocumentParser(system.cfg, system.log);
    }

    ghost predicate Wired()
    {
      parser.cfg == system.cfg && parser.log == system.log
    }

    /** What a part of `process` returned, and where it left the worker. */
    ghost predicate Left<T>(r: Result<T, Failure>, k: Work<Failure>, w: nat, job: Uuid, run: Attempt)
      reads system, system.log
    {
      match r
      case Ok(_) => k.failure.None?
      case Err(f) => k.failure == Some(f) && system.Doing(w, job, Failing(run))
    }

    /** An exception leaves `process` and is caught in `_handle`. */
    method Fail(w: nat, ghost job: Uuid, ghost run: Attempt)
      requires system.Sound() && system.Excused()
      requires BusyAt(system.model.workers, w) && Unresolved(system.model.workers[w].stage)
               && !system.model.workers[w].stage.Failing?
      requires system.Doing(w, job, system.model.workers[w].stage) && system.model.workers[w].stage.run == run
      modifies system`model, system`trace, system`deeds
      ensures system.deeds == old(system.deeds) + [Raise(w)]
      ensures system.Sound() && system.Doing(w, job, Failing(run)) && system.Grew()
    {
      hide Inv, Run, After, Faults, Deeds, Mine, Faulty, Effect;
      RaiseMoves(system.model, system.clock, w);
      system.Perform(Raise(w), w, Busy(job, Failing(run)));
    }

    /** The job's row, which cannot be missing. */
    method ReadRow(session: Session, w: nat, job: Uuid, ghost run: Attempt) returns (r: Result<Job, Failure>)
      requires system.Sound() && system.Doing(w, job, Claimed(run))
      requires session.db == system.db && !session.dirty
      modifies system, system.db, system.store, system.queue, system.stop, system.log
      ensures var k := ReadWork(w, system.log.weather, old(system.log.count));
              system.Followed(k.steps, k.next) && Left(r, k, w, job, run)
      ensures r.Ok? ==> && system.Doing(w, job, Claimed(run))
                        && job in system.model.db.jobs && r.value == system.model.db.jobs[job]
      ensures system.Sound() && system.Grew()
    {
      hide Inv, Run, After, Faults, Deeds, Mine, Faulty, Effect, RawKey, Kept;
      system.Pause(w, job, Claimed(run));
      var row := session.GetForProcessing(job);
      if row.Err? {
        Fail(w, job, run);
        return Err(DatabaseFailure);
      }
      WorkedDocument(system.model, w);
      r := Ok(row.value.value);
    }

    /** The row's document, which cannot be missing either. */
    method FindDocument(session: Session, w: nat, job: Uuid, row: Job, ghost run: Attempt)
      returns (r: Result<Document, Failure>)
      requires system.Sound() && system.Doing(w, job, Claimed(run))
      requires job in system.model.db.jobs && SameDocument(row, system.model.db.jobs[job])
      requires session.db == system.db && !session.dirty
      modifies system, system.db, system.store, system.queue, system.stop, system.log
      ensures var k := ReadWork(w, system.log.weather, old(system.log.count));
              system.Followed(k.steps, k.next) && Left(r, k, w, job, run)
      ensures r.Ok? ==> && system.Doing(w, job, Claimed(run))
                        && job in system.model.db.jobs && SameDocument(row, system.model.db.jobs[job])
                        && r.value.key == RawKey(row.account, row.doc)
      ensures system.Sound() && system.Grew()
    {
      hide Inv, Run, After, Faults, Deeds, Mine, Faulty, Effect, RawKey, Kept;
      system.Pause(w, job, Claimed(run));
      WorkedDocument(system.model, w);
      var document := session.GetDocument(row.doc, row.account);
      if document.Err? {
        Fail(w, job, run);
        return Err(DatabaseFailure);
      }
      r := Ok(document.value.value);
    }

    /** Row and document. */
    method ReadDocument(session: Session, w: nat, job: Uuid, ghost run: Attempt) returns (r: Result<(Job, Document), Failure>)
      requires system.Sound() && system.Doing(w, job, Claimed(run))
      requires session.db == system.db && !session.dirty
      modifies system, system.db, system.store, system.queue, system.stop, system.log
      ensures var k := LookupWork(w, system.log.weather, old(system.log.count));
              system.Followed(k.steps, k.next) && Left(r, k, w, job, run)
      ensures r.Ok? ==> && system.Doing(w, job, Claimed(run))
                        && job in system.model.db.jobs && SameDocument(r.value.0, system.model.db.jobs[job])
                        && r.value.1.key == RawKey(r.value.0.account, r.value.0.doc)
      ensures system.Sound() && system.Grew()
    {
      hide Inv, Run, After, Faults, Deeds, Mine, Faulty, Effect, RawKey, Kept, ReadWork, Next, System.Sound;
      ghost var before, o, n := system.deeds, system.log.weather, system.log.count;
      GoesOn(w, o, n, Fetch(w), StorageFailure, true);
      Joined(before, ReadWork(w, o, n), ReadWork(w, o, n + 1));
      var row := ReadRow(session, w, job, run);
      if row.Err? { return Err(row.error); }
      var document := FindDocument(session, w, job, row.value, run);
      r := if document.Err? then Err(document.error) else Ok((row.value, document.value));
    }

    /** The current raw object of the document, which is there. */
    method FetchContent(w: nat, job: Uuid, row: Job, document: Document, ghost run: Attempt)
      returns (r: Result<Bytes, Failure>)
      requires system.Sound() && system.Doing(w, job, Claimed(run))
      requires job in system.model.db.jobs && SameDocument(row, system.model.db.jobs[job])
      requires document.key == RawKey(row.account, row.doc)
      modifies system, system.db, system.store, system.queue, system.stop, system.log
      ensures var k := CallWork(w, system.log.weather, old(system.log.count), Fetch(w), StorageFailure);
              system.Followed(k.steps, k.next) && Left(r, k, w, job, run)
      ensures r.Ok? ==> system.Doing(w, job, Fetched(run, Target(row.account, row.doc), r.value))
      ensures system.Sound() && system.Grew()
    {
      hide Inv, Run, After, Faults, Deeds, Mine, Faulty, Effect, RawKey, Kept;
      system.Pause(w, job, Claimed(run));
      RawObjectIsThere(system.model, w);
      var content := system.store.GetObject(document.key);
      if content.None? {
        Fail(w, job, run);
        return Err(StorageFailure);
      }
      FetchMoves(system.model, system.clock, w, row, content.value);
      system.Perform(Fetch(w), w, Busy(job, Fetched(run, Target(row.account, row.doc), content.value)));
      r := Ok(content.value);
    }

    method ParseContent(w: nat, job: Uuid, content: Bytes, ghost run: Attempt, ghost target: Target)
      returns (r: Result<string, Failure>)
      requires Wired() && system.Sound() && system.Doing(w, job, Fetched(run, target, content))
      modifies system, system.db, system.store, system.queue, system.stop, system.log
      ensures var k := CallWork(w, system.log.weather, old(system.log.count), Parse(w), ParserFailure);
              system.Followed(k.steps, k.next) && Left(r, k, w, job, run)
      ensures r.Ok? ==> system.Doing(w, job, Parsed(run, target, r.value)) && r.value == system.cfg.parse(content)
      ensures system.Sound() && system.Grew()
    {
      hide Inv, Run, After, Faults, Deeds, Mine, Faulty, Effect, Kept;
      system.Pause(w, job, Fetched(run, target, content));
      var markdown := parser.Parse(content);
      if markdown.None? {
        Fail(w, job, run);
        return Err(ParserFailure);
      }
      ParseMoves(system.model, system.clock, w);
      system.Perform(Parse(w), w, Busy(job, Parsed(run, target, markdown.value)));
      r := Ok(markdown.value);
    }

    /** The artifact object is written before any row. */
    method StoreResult(w: nat, job: Uuid, row: Job, markdown: string, ghost run: Attempt)
      returns (r: Result<string, Failure>)
      requires system.Sound() && system.Doing(w, job, Parsed(run, Target(row.account, row.doc), markdown))
      modifies system, system.db, system.store, system.queue, system.stop, system.log
      ensures var k := StoreWork(w, system.log.weather, old(system.log.count));
              system.Followed(k.steps, k.next) && Left(r, k, w, job, run)
      ensures r.Ok? ==> r.value == ArtifactKey(row.account, row.doc)
                        && system.Doing(w, job, Stored(run, Target(row.account, row.doc)))
      ensures system.Sound() && system.Grew()
    {
      hide Inv, Run, After, Faults, Deeds, Mine, Faulty, Effect, Put, ArtifactKey, Kept;
      system.Pause(w, job, Parsed(run, Target(row.account, row.doc), markdown));
      var key := ArtifactKey(row.account, row.doc);
      var ok, written := system.store.PutObject(key, system.cfg.encode(markdown));
      StoreEffect(system.model, system.clock, w);
      if written { system.Perform(Store(w), w, Busy(job, Stored(run, Target(row.account, row.doc)))); }
      if !ok {
        Fail(w, job, run);
        return Err(StorageFailure);
      }
      r := Ok(key);
    }

    /** The artifact upsert and the COMPLETED update, staged in the session and not yet committed.  `seen` is the state
        they meet and `drawn` the id drawn for the artifact row. */
    method Stage(session: Session, w: nat, job: Uuid, row: Job, key: string, ghost run: Attempt)
      returns (r: Result<Uuid, Failure>, ghost seen: State, ghost drawn: Uuid)
      requires system.Sound() && system.Doing(w, job, Stored(run, Target(row.account, row.doc)))
      requires job in system.model.db.jobs && SameDocument(row, system.model.db.jobs[job])
      requires session.db == system.db && !session.dirty && key == ArtifactKey(row.account, row.doc)
      modifies system, system.db, system.store, system.queue, system.stop, system.log, session
      ensures drawn == system.IdAt(old(system.log.count))
      ensures var k := StageWork(w, system.log.weather, old(system.log.count), Free(seen, job, drawn));
              system.Followed(k.steps, k.next) && Left(r, k, w, job, run)
      ensures r.Ok? ==> && r.value == drawn && system.Doing(w, job, Stored(run, Target(row.account, row.doc)))
                        && session.dirty
                        && CompletedTables(system.db.tables, job, Target(row.account, row.doc), drawn, system.clock)
                           == Ok(session.staged)
      ensures system.Sound() && system.Grew() && system.Passed(|old(system.trace)|, seen)
    {
      hide Inv, Run, After, Faults, Deeds, Mine, Faulty, Effect, ArtifactKey, Kept, RowIdFree, UpsertArtifact,
           UpdateStatus, PassedIn;
      system.Pause(w, job, Stored(run, Target(row.account, row.doc)));
      seen := system.model;
      ghost var past := system.trace;
      PassedNow(system.cfg, past, |old(system.trace)|, seen);
      var now := system.Now();
      var artifact := system.log.Uuid4();
      drawn := artifact;
      OwnedUpdates(system.model, w, now);
      UpsertSucceeds(system.model.db, Artifact(artifact, job, row.doc, Markdown, key, now));
      r := Statements(session, w, job, row, key, artifact, now, run);
      PassedStays(system.cfg, past, system.trace, |old(system.trace)|, |old(system.trace)|, seen);
    }

    /** The two statements. */
    method Statements(session: Session, w: nat, job: Uuid, row: Job, key: string, artifact: Uuid, now: nat, ghost run: Attempt)
      returns (r: Result<Uuid, Failure>)
      requires system.Sound() && system.Doing(w, job, Stored(run, Target(row.account, row.doc))) && now == system.clock
      requires session.db == system.db && !session.dirty && key == ArtifactKey(row.account, row.doc)
      requires Schema.UpdateStatus(system.db.tables.jobs, job, Completed, Started, None, now).Ok?
      modifies system`model, system`trace, system`deeds, system.log, session
      ensures var free := Schema.UpsertArtifact(old(system.db.tables), Artifact(artifact, job, row.doc, Markdown, key, now)).Ok?;
              var k := StageWork(w, system.log.weather, old(system.log.count), free);
              system.Followed(k.steps, k.next) && Left(r, k, w, job, run)
      ensures r.Ok? ==> && r.value == artifact && system.Doing(w, job, Stored(run, Target(row.account, row.doc)))
                        && session.dirty
                        && CompletedTables(system.db.tables, job, Target(row.account, row.doc), artifact, system.clock)
                           == Ok(session.staged)
      ensures system.Sound() && system.Grew()
    {
      hide Inv, Run, After, Faults, Deeds, Mine, Faulty, Effect, ArtifactKey, UpsertArtifact, UpdateStatus;
      var upserted := session.UpsertArtifact(Artifact(artifact, job, row.doc, Markdown, key, now));
      if upserted.Err? {
        Fail(w, job, run);
        return Err(DatabaseFailure);
      }
      assert system.Sound();
      var updated := session.UpdateStatus(job, Completed, Started, None, now);
      if updated.Err? {
        Fail(w, job, run);
        return Err(DatabaseFailure);
      }
      r := Ok(artifact);
    }

    /** Everything up to the commit, which belongs to the caller's session block: afterwards the worker is ready to
        commit exactly the completion transaction of its own claim, or one of the seven calls raised. */
    method Process(session: Session, w: nat, job: Uuid, ghost run: Attempt)
      returns (r: Result<Uuid, Failure>, ghost seen: State, ghost drawn: Uuid)
      requires Wired() && system.Sound() && system.Doing(w, job, Claimed(run))
      requires session.db == system.db && !session.dirty
      modifies system, system.db, system.store, system.queue, system.stop, system.log, session
      ensures drawn == system.IdAt(old(system.log.count) + 5)
      ensures var k := ProcessWork(w, system.log.weather, old(system.log.count), Free(seen, job, drawn));
              system.Followed(k.steps, k.next) && Left(r, k, w, job, run)
      ensures r.Ok? ==> && r.value == drawn && BusyAt(system.model.workers, w) && system.model.workers[w].stage.Stored?
                        && system.Doing(w, job, Stored(run, system.model.workers[w].stage.target))
                        && session.dirty
                        && CompletedTables(system.db.tables, job, system.model.workers[w].stage.target, drawn, system.clock)
                           == Ok(session.staged)
      ensures system.Sound() && system.Grew() && system.Passed(|old(system.trace)|, seen)
    {
      hide Inv, Run, After, Faults, Deeds, Mine, Faulty, Effect, Kept, ArtifactKey, RawKey, SameDocument,
           CompletedTables, Free, PassedIn, LookupWork, ProduceWork, StageWork, Next, Fails, System.Sound, System.IdAt;
      ghost var before, o, n := system.deeds, system.log.weather, system.log.count;
      GoesOn(w, o, n, Fetch(w), StorageFailure, true);
      var found := ReadDocument(session, w, job, run);
      if found.Err? {
        seen, drawn := system.model, system.IdAt(n + 5);
        PassedHere(system, |old(system.trace)|);
        Joined(before, LookupWork(w, o, n), Next(ProduceWork(w, o, n + 2), StageWork(w, o, n + 5, Free(seen, job, drawn))));
        return Err(found.error), seen, drawn;
      }
      ghost var past := |system.trace|;
      r, seen, drawn := Complete(session, w, job, found.value.0, found.value.1, run);
      PassedStays(system.cfg, system.trace, system.trace, past, |old(system.trace)|, seen);
      Joined(before, LookupWork(w, o, n), Next(ProduceWork(w, o, n + 2), StageWork(w, o, n + 5, Free(seen, job, drawn))));
    }

    /** From the document on. */
    method Complete(session: Session, w: nat, job: Uuid, row: Job, document: Document, ghost run: Attempt)
      returns (r: Result<Uuid, Failure>, ghost seen: State, ghost drawn: Uuid)
      requires Wired() && system.Sound() && system.Doing(w, job, Claimed(run))
      requires job in system.model.db.jobs && SameDocument(row, system.model.db.jobs[job])
      requires document.key == RawKey(row.account, row.doc)
      requires session.db == system.db && !session.dirty
      modifies system, system.db, system.store, system.queue, system.stop, system.log, session
      ensures drawn == system.IdAt(old(system.log.count) + 3)
      ensures var n := old(system.log.count);
              var k := Next(ProduceWork(w, system.log.weather, n),
                            StageWork(w, system.log.weather, n + 3, Free(seen, job, drawn)));
              system.Followed(k.steps, k.next) && Left(r, k, w, job, run)
      ensures r.Ok? ==> && r.value == drawn && BusyAt(system.model.workers, w) && system.model.workers[w].stage.Stored?
                        && system.Doing(w, job, Stored(run, system.model.workers[w].stage.target))
                        && session.dirty
                        && CompletedTables(system.db.tables, job, system.model.workers[w].stage.target, drawn, system.clock)
                           == Ok(session.staged)
      ensures system.Sound() && system.Grew() && system.Passed(|old(system.trace)|, seen)
    {
      hide Inv, Run, After, Faults, Deeds, Mine, Faulty, Effect, Kept, ArtifactKey, RawKey, SameDocument,
           CompletedTables, Free, PassedIn, ProduceWork, StageWork, Next, Fails, System.Sound, System.IdAt;
      ghost var before, o, n := system.deeds, system.log.weather, system.log.count;
      GoesOn(w, o, n, Fetch(w), StorageFailure, true);
      var key := Produce(w, job, row, document, run);
      if key.Err? {
        seen, drawn := system.model, system.IdAt(n + 3);
        PassedHere(system, |old(system.trace)|);
        Joined(before, ProduceWork(w, o, n), StageWork(w, o, n + 3, Free(seen, job, drawn)));
        return Err(key.error), seen, drawn;
      }
      ghost var past := |system.trace|;
      r, seen, drawn := Stage(session, w, job, row, key.value, run);
      PassedStays(system.cfg, system.trace, system.trace, past, |old(system.trace)|, seen);
      Joined(before, ProduceWork(w, o, n), StageWork(w, o, n + 3, Free(seen, job, drawn)));
    }

    /** Fetch, parse, store. */
    method Produce(w: nat, job: Uuid, row: Job, document: Document, ghost run: Attempt)
      returns (r: Result<string, Failure>)
      requires Wired() && system.Sound() && system.Doing(w, job, Claimed(run))
      requires job in system.model.db.jobs && SameDocument(row, system.model.db.jobs[job])
      requires document.key == RawKey(row.account, row.doc)
      modifies system, system.db, system.store, system.queue, system.stop, system.log
      ensures var k := ProduceWork(w, system.log.weather, old(system.log.count));
              system.Followed(k.steps, k.next) && Left(r, k, w, job, run)
      ensures r.Ok? ==> && r.value == ArtifactKey(row.account, row.doc)
                        && system.Doing(w, job, Stored(run, Target(row.account, row.doc)))
                        && job in system.model.db.jobs && SameDocument(row, system.model.db.jobs[job])
      ensures system.Sound() && system.Grew()
    {
      hide Inv, Run, After, Faults, Deeds, Mine, Faulty, Effect, Kept, ArtifactKey, RawKey, SameDocument, CallWork,
           StoreWork, Next, System.Sound;
      ghost var before, o, n := system.deeds, system.log.weather, system.log.count;
      GoesOn(w, o, n, Fetch(w), StorageFailure, true);
      Joined(before, CallWork(w, o, n, Fetch(w), StorageFailure),
             Next(CallWork(w, o, n + 1, Parse(w), ParserFailure), StoreWork(w, o, n + 2)));
      var content := FetchContent(w, job, row, document, run);
      if content.Err? { return Err(content.error); }
      r := ParseAndStore(w, job, row, content.value, run);
    }

    /** Parse, store. */
    method ParseAndStore(w: nat, job: Uuid, row: Job, content: Bytes, ghost run: Attempt)
      returns (r: Result<string, Failure>)
      requires Wired() && system.Sound()
      requires system.Doing(w, job, Fetched(run, Target(row.account, row.doc), content))
      modifies system, system.db, system.store, system.queue, system.stop, system.log
      ensures var n := old(system.log.count);
              var k := Next(CallWork(w, system.log.weather, n, Parse(w), ParserFailure),
                            StoreWork(w, system.log.weather, n + 1));
              system.Followed(k.steps, k.next) && Left(r, k, w, job, run)
      ensures r.Ok? ==> && r.value == ArtifactKey(row.account, row.doc)
                        && system.Doing(w, job, Stored(run, Target(row.account, row.doc)))
                        && job in system.model.db.jobs && SameDocument(row, system.model.db.jobs[job])
      ensures system.Sound() && system.Grew()
    {
      hide Inv, Run, After, Faults, Deeds, Mine, Faulty, Effect, Kept, ArtifactKey, RawKey, CallWork, StoreWork, Next,
           System.Sound;
      ghost var before, o, n := system.deeds, system.log.weather, system.log.count;
      GoesOn(w, o, n, Parse(w), ParserFailure, true);
      Joined(before, CallWork(w, o, n, Parse(w), ParserFailure), StoreWork(w, o, n + 1));
      var markdown := ParseContent(w, job, content, run, Target(row.account, row.doc));
      if markdown.Err? { return Err(markdown.error); }
      r := StoreResult(w, job, row, markdown.value, run);
      SoundInv(system);
      if r.Ok? { TargetIs(system.model, w); }
    }
  }

  lemma TargetIs(s: State, w: nat)
    requires Inv(s) && BusyAt(s.workers, w) && s.workers[w].stage.Stored?
    ensures s.workers[w].job in s.db.jobs
    ensures var row := s.db.jobs[s.workers[w].job]; s.workers[w].stage.target == Target(row.account, row.doc)
  {
    hide Shapes, Claims, Linked, Known, Awake, Documents, Pure, Artifacts, IndexHolds;
    JobKnown(s, w);
  }
}
