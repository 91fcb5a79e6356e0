/** `JobService.create` and `DocumentService.create`. */
module Api {
  import opened Wrappers
  import opened Keys
  import opened Schema
  import opened Protocol
  import opened Ownership
  import opened Wakeups
  import opened Contents
  import opened Frames
  import opened Invariants
  import opened Scripts
  import opened Requests
  import opened Infrastructure
  import opened Effects
  import opened Cluster
  import opened Processing

  /** The states in which a request met the pipeline: at the document lookup, at `object_exists`, at the depth read, and
      at the insert. */
  datatype Sights = Sights(find: State, check: State, depth: State, insert: State)

  predicate HasActiveJob(jobs: Jobs, account: nat, doc: Uuid)
  {
    exists i :: i in jobs && Active(jobs[i]) && jobs[i].account == account && jobs[i].doc == doc
  }

  predicate IsUploaded(s: State, account: nat, doc: Uuid)
  {
    var d := GetDocument(s.db.docs, doc, account);
    d.Some? && d.value.key in s.objects
  }

  ghost function RepliesOf(seen: Sights, account: nat, doc: Uuid, id: Uuid): (a: Replies)
  {
    Replies(GetDocument(seen.find.db.docs, doc, account).Some?, IsUploaded(seen.check, account, doc),
            |seen.depth.broker.ready|, id in seen.insert.db.jobs, HasActiveJob(seen.insert.db.jobs, account, doc))
  }

  /** `step` can happen at time `now`; it leaves these tables and messages, and the request there. */
  ghost predicate Yields(s: State, now: nat, step: Step, db: Tables, broker: Broker, request: Option<Request>)
  {
    && Enabled(s, step) && Enabled(s.(clock := now), step) && RequestOf(step).Some?
    && var t := Do(s.(clock := now), step);
       t.db == db && t.objects == s.objects && t.broker == broker && RequestIn(t.requests, RequestOf(step).value) == request
  }

  lemma YieldsIs(s: State, now: nat, step: Step, db: Tables, broker: Broker, request: Option<Request>)
    requires Yields(s, now, step, db, broker, request)
    ensures Enabled(s, step) && Enabled(s.(clock := now), step) && RequestOf(step).Some? && !step.Start? && !step.Stop?
    ensures var t := Do(s.(clock := now), step);
            && t.db == db && t.objects == s.objects && t.broker == broker
            && RequestIn(t.requests, RequestOf(step).value) == request
  {
  }

  lemma SubmitYields(s: State, now: nat, r: nat, account: nat, doc: Uuid)
    requires r !in s.requests
    ensures var d := GetDocument(s.db.docs, doc, account);
            Yields(s, now, Submit(r, account, doc), s.db, s.broker,
                    if d.Some? && d.value.key in s.objects then Some(Validated(account, doc)) else None)
    ensures !Faulty(Submit(r, account, doc))
  {
  }

  lemma CheckDepthYields(s: State, now: nat, r: nat, misread: bool)
    requires r in s.requests && s.requests[r].Validated?
    ensures Yields(s, now, CheckDepth(r, misread), s.db, s.broker,
                    if (if misread then 0 else |s.broker.ready|) >= s.cfg.threshold then None
                    else Some(Admitted(s.requests[r].account, s.requests[r].doc)))
    ensures !Faulty(CheckDepth(r, misread))
  {
  }

  lemma InsertYields(s: State, now: nat, r: nat, job: Uuid, commit: Commit)
    requires r in s.requests && s.requests[r].Admitted?
    ensures var inserted := InsertJob(s.db, job, NewJob(s.requests[r].account, s.requests[r].doc, s.cfg.maxAttempts, now));
            Yields(s, now, Insert(r, job, commit),
                    if inserted.Err? || commit == Unacknowledged(false) then s.db else s.db.(jobs := inserted.value), s.broker,
                    if inserted.Ok? && commit.Acknowledged? then Some(Inserted(job)) else None)
    ensures Faulty(Insert(r, job, commit)) <==> !commit.Acknowledged?
  {
    hide InsertJob;
  }

  lemma PublishYields(s: State, now: nat, r: nat)
    requires r in s.requests && s.requests[r].Inserted?
    ensures Yields(s, now, Publish(r), s.db, Enqueued(s.broker, s.requests[r].job), None)
    ensures !Faulty(Publish(r))
  {
  }

  lemma AbandonYields(s: State, now: nat, r: nat)
    requires r in s.requests
    ensures Yields(s, now, Abandon(r), s.db, s.broker, None)
  {
  }

  /** What the insert meets: the document is still there, so only a taken id or an active job stands against it. */
  lemma InsertMeets(s: State, r: nat, id: Uuid, now: nat)
    requires Inv(s) && r in s.requests && s.requests[r].Admitted?
    ensures var account, doc := s.requests[r].account, s.requests[r].doc;
            var inserted := InsertJob(s.db, id, NewJob(account, doc, s.cfg.maxAttempts, now));
            && (inserted == Err(DatabaseError) <==> id in s.db.jobs)
            && (inserted == Err(ActiveJobExists) <==> id !in s.db.jobs && HasActiveJob(s.db.jobs, account, doc))
            && (inserted.Err? ==> inserted.error.DatabaseError? || inserted.error.ActiveJobExists?)
  {
    hide Shapes, Claims, Linked, Known, Awake, Pure, Artifacts;
    var account, doc := s.requests[r].account, s.requests[r].doc;
    var row := NewJob(account, doc, s.cfg.maxAttempts, now);
    assert doc in s.db.docs;
    if id !in s.db.jobs { InsertAndIndex(s.db, id, account, doc, s.cfg.maxAttempts, now); }
  }

  class JobService {
    const system: System
    const r: nat

    constructor (system: System, r: nat)
      ensures this.system == system && this.r == r
    {
      this.system, this.r := system, r;
    }

    ghost predicate Open(request: Option<Request>)
      reads system
    {
      system.me == Client(r) && RequestIn(system.model.requests, r) == request
    }

    /** What a refusal tells the client about the pipeline at the moment of the answer. */
    ghost predicate Justified(e: ApiError, account: nat, doc: Uuid)
      reads system, system.db, system.store, system.queue
    {
      match e
      case DocumentNotFound => GetDocument(system.db.tables.docs, doc, account).None?
      case DocumentNotUploaded =>
        var d := GetDocument(system.db.tables.docs, doc, account);
        d.Some? && d.value.key !in system.store.objects
      case Backpressured => |system.queue.state.ready| >= system.cfg.threshold
      case ActiveJob =>
        HasActiveJob(system.db.tables.jobs, account, doc)
      case _ => true
    }

    method Perform(step: Step, ghost request: Option<Request>)
      requires system.Traced() && system.Signalled() && system.Wired() && Inv(system.model)
      requires Yields(system.model, system.clock, step, system.db.tables, system.queue.state, request)
      requires system.store.objects == system.model.objects && RequestOf(step) == Some(r) && system.me == Client(r)
      requires Faulty(step) ==> system.Excused()
      modifies system`model, system`trace, system`deeds
      ensures system.Sound() && system.Grew() && Open(request) && system.deeds == old(system.deeds) + [step]
    {
      hide Inv, Run, After, Faults, Deeds, Faulty, Enabled, Do;
      YieldsIs(system.model, system.clock, step, system.db.tables, system.queue.state, request);
      system.Record(step);
    }

    /** The document lookup and `object_exists`, in the states `find` and `check`. */
    method Validate(session: Session, account: nat, doc: Uuid)
      returns (error: Option<ApiError>, ghost find: State, ghost check: State)
      requires system.Sound() && Open(None) && session.db == system.db && !session.dirty
      modifies system, system.db, system.store, system.queue, system.stop, system.log
      ensures var found := GetDocument(find.db.docs, doc, account).Some?;
              var k := ValidateWork(r, system.log.weather, old(system.log.count), account, doc, found,
                                    IsUploaded(check, account, doc));
              system.Followed(k.steps, k.next) && error == k.failure
      ensures system.Passed(|old(system.trace)|, find) && system.Passed(|old(system.trace)|, check)
      ensures Open(if error.None? then Some(Validated(account, doc)) else None)
      ensures error.Some? ==> Justified(error.value, account, doc)
      ensures system.Sound() && system.Grew()
    {
      hide Inv, Run, After, Faults, Deeds, Mine, Faulty, Yields, PassedIn;
      system.Await();
      find, check := system.model, system.model;
      PassedHere(system, |old(system.trace)|);
      var document := session.GetDocument(doc, account);
      if document.Err? { return Some(DatabaseUnavailable), find, check; }
      ghost var past := system.trace;
      if document.value.None? {
        RefuseUnknown(account, doc);
        PassedStays(system.cfg, past, system.trace, |old(system.trace)|, |old(system.trace)|, find);
        return Some(DocumentNotFound), find, find;
      }
      error, check := CheckUpload(account, doc, document.value.value);
      PassedStays(system.cfg, past, system.trace, |old(system.trace)|, |old(system.trace)|, find);
      PassedStays(system.cfg, system.trace, system.trace, |past|, |old(system.trace)|, check);
    }

    /** The account has no such document. */
    method RefuseUnknown(account: nat, doc: Uuid)
      requires system.Sound() && Open(None) && GetDocument(system.db.tables.docs, doc, account).None?
      modifies system`model, system`trace, system`deeds
      ensures system.deeds == old(system.deeds) + [Submit(r, account, doc)]
      ensures system.Sound() && system.Grew() && Open(None)
    {
      hide Inv, Run, After, Faults, Deeds, Mine, Faulty, Yields;
      SubmitYields(system.model, system.clock, r, account, doc);
      Perform(Submit(r, account, doc), None);
    }

    /** `object_exists` for a document that was found. */
    method CheckUpload(account: nat, doc: Uuid, document: Document) returns (error: Option<ApiError>, ghost check: State)
      requires system.Sound() && Open(None) && GetDocument(system.db.tables.docs, doc, account) == Some(document)
      modifies system, system.db, system.store, system.queue, system.stop, system.log
      ensures system.log.count == old(system.log.count) + 1
      ensures error == if Fails(system.log.weather, old(system.log.count)) then Some(StorageUnavailable)
                       else if IsUploaded(check, account, doc) then None else Some(DocumentNotUploaded)
      ensures system.deeds == old(system.deeds) + if error == Some(StorageUnavailable) then [] else [Submit(r, account, doc)]
      ensures system.Passed(|old(system.trace)|, check)
      ensures Open(if error.None? then Some(Validated(account, doc)) else None)
      ensures error.Some? ==> Justified(error.value, account, doc)
      ensures system.Sound() && system.Grew()
    {
      hide Inv, Run, After, Faults, Deeds, Mine, Faulty, Yields, PassedIn;
      system.Await();
      check := system.model;
      ghost var past := system.trace;
      PassedHere(system, |old(system.trace)|);
      var uploaded := system.store.ObjectExists(document.key);
      if uploaded.None? { return Some(StorageUnavailable), check; }
      SubmitYields(system.model, system.clock, r, account, doc);
      if !uploaded.value {
        Perform(Submit(r, account, doc), None);
        error := Some(DocumentNotUploaded);
      } else {
        Perform(Submit(r, account, doc), Some(Validated(account, doc)));
        error := None;
      }
      PassedStays(system.cfg, past, system.trace, |old(system.trace)|, |old(system.trace)|, check);
    }

    /** The queue depth is read without a lock and compared to the threshold. */
    method CheckBackpressure(account: nat, doc: Uuid) returns (error: Option<ApiError>, ghost depth: State)
      requires system.Sound() && Open(Some(Validated(account, doc)))
      modifies system, system.db, system.store, system.queue, system.stop, system.log
      ensures var k := DepthWork(r, system.log.weather, old(system.log.count), |depth.broker.ready|, system.cfg.threshold);
              system.Followed(k.steps, k.next) && error == k.failure
      ensures system.Passed(|old(system.trace)|, depth)
      ensures Open(if error.None? then Some(Admitted(account, doc)) else None)
      ensures error.Some? ==> Justified(error.value, account, doc)
      ensures system.Sound() && system.Grew()
    {
      hide Inv, Run, After, Faults, Deeds, Mine, Faulty, Yields, PassedIn;
      system.Await();
      depth := system.model;
      ghost var past := system.trace;
      PassedHere(system, |old(system.trace)|);
      var answer, misread := system.queue.Depth();
      CheckDepthYields(system.model, system.clock, r, misread);
      if answer.None? {
        GiveUp();
        error := Some(QueueUnavailable);
      } else {
        error := if answer.value >= system.cfg.threshold then Some(Backpressured) else None;
        Perform(CheckDepth(r, misread), if error.Some? then None else Some(Admitted(account, doc)));
      }
      PassedStays(system.cfg, past, system.trace, |old(system.trace)|, |old(system.trace)|, depth);
    }

    /** The insert and its commit.  `insert` is the state that the INSERT met. */
    method InsertRow(session: Session, account: nat, doc: Uuid) returns (result: Result<Uuid, ApiError>, ghost insert: State)
      requires system.Sound() && Open(Some(Admitted(account, doc))) && session.db == system.db && !session.dirty
      modifies system, system.db, system.store, system.queue, system.stop, system.log, session
      ensures var id := system.IdAt(old(system.log.count));
              var k := InsertWork(r, system.log.weather, old(system.log.count), id, id in insert.db.jobs,
                                  HasActiveJob(insert.db.jobs, account, doc));
              && system.Followed(k.steps, k.next)
              && result == if k.failure.None? then Ok(id) else Err(k.failure.value)
      ensures system.Passed(|old(system.trace)|, insert)
      ensures Open(if result.Ok? then Some(Inserted(result.value)) else None)
      ensures result.Ok? ==> && result.value in system.model.db.jobs
                             && system.model.db.jobs[result.value]
                                == NewJob(account, doc, system.cfg.maxAttempts, system.clock)
      ensures result.Err? ==> Justified(result.error, account, doc)
      ensures system.Sound() && system.Grew()
    {
      hide Inv, Run, After, Faults, Deeds, Mine, Faulty, Yields, InsertJob, PassedIn;
      system.Await();
      insert := system.model;
      ghost var past := system.trace;
      PassedHere(system, |old(system.trace)|);
      var now := system.Now();
      var id := system.log.Uuid4();
      InsertMeets(system.model, r, id, now);
      result := TryInsert(session, account, doc, id, now);
      PassedStays(system.cfg, past, system.trace, |old(system.trace)|, |old(system.trace)|, insert);
    }

    /** The INSERT with its three outcomes. */
    method TryInsert(session: Session, account: nat, doc: Uuid, id: Uuid, now: nat) returns (result: Result<Uuid, ApiError>)
      requires system.Sound() && Open(Some(Admitted(account, doc))) && now == system.clock
      requires session.db == system.db && !session.dirty
      requires var inserted := InsertJob(system.db.tables, id, NewJob(account, doc, system.cfg.maxAttempts, now));
               && (inserted == Err(DatabaseError) <==> id in system.db.tables.jobs)
               && (inserted == Err(ActiveJobExists) <==>
                     id !in system.db.tables.jobs && HasActiveJob(system.db.tables.jobs, account, doc))
               && (inserted.Err? ==> inserted.error.DatabaseError? || inserted.error.ActiveJobExists?)
      modifies system`model, system`trace, system`deeds, system.db, system.log, session
      ensures var k := InsertWork(r, system.log.weather, old(system.log.count), id, id in old(system.model).db.jobs,
                                  HasActiveJob(old(system.model).db.jobs, account, doc));
              && system.Followed(k.steps, k.next)
              && result == if k.failure.None? then Ok(id) else Err(k.failure.value)
      ensures Open(if result.Ok? then Some(Inserted(result.value)) else None)
      ensures result.Ok? ==> && result.value in system.model.db.jobs
                             && system.model.db.jobs[result.value]
                                == NewJob(account, doc, system.cfg.maxAttempts, system.clock)
      ensures result.Err? ==> Justified(result.error, account, doc)
      ensures system.Sound() && system.Grew()
    {
      hide Inv, Run, After, Faults, Deeds, Mine, InsertJob, HasActiveJob;
      var row := session.CreateJob(id, account, doc, system.cfg.maxAttempts, now);
      if row.Ok? {
        result := CommitRow(session, account, doc, id, now);
      } else if row.error.DatabaseError? {
        GiveUp();
        result := Err(DatabaseUnavailable);
      } else {
        Refuse(account, doc, id, now);
        result := Err(ActiveJob);
      }
    }

    /** The request ends where it is, after a call raised. */
    method GiveUp()
      requires system.Sound() && system.me == Client(r) && r in system.model.requests && system.Excused()
      modifies system`model, system`trace, system`deeds
      ensures system.deeds == old(system.deeds) + [Abandon(r)]
      ensures system.Sound() && system.Grew() && Open(None)
    {
      hide Inv, Run, After, Faults, Deeds, Mine, Faulty, Yields;
      AbandonYields(system.model, system.clock, r);
      Perform(Abandon(r), None);
    }

    /** The index refused the row. */
    method Refuse(account: nat, doc: Uuid, id: Uuid, now: nat)
      requires system.Sound() && Open(Some(Admitted(account, doc))) && now == system.clock
      requires InsertJob(system.db.tables, id, NewJob(account, doc, system.cfg.maxAttempts, now)).Err?
      modifies system`model, system`trace, system`deeds
      ensures system.deeds == old(system.deeds) + [Insert(r, id, Acknowledged)]
      ensures system.Sound() && system.Grew() && Open(None)
    {
      hide Inv, Run, After, Faults, Deeds, Mine, Faulty, Yields, InsertJob;
      InsertYields(system.model, now, r, id, Acknowledged);
      Perform(Insert(r, id, Acknowledged), None);
    }

    method CommitRow(session: Session, account: nat, doc: Uuid, id: Uuid, now: nat) returns (result: Result<Uuid, ApiError>)
      requires system.Sound() && Open(Some(Admitted(account, doc))) && now == system.clock
      requires session.db == system.db && session.dirty
      requires var inserted := InsertJob(system.db.tables, id, NewJob(account, doc, system.cfg.maxAttempts, now));
               inserted.Ok? && session.staged == system.db.tables.(jobs := inserted.value)
      modifies system`model, system`trace, system`deeds, system.db, system.log
      ensures system.Followed([Insert(r, id, CommitBy(system.log.weather, old(system.log.count)))], old(system.log.count) + 1)
      ensures result == if Fails(system.log.weather, old(system.log.count)) then Err(DatabaseUnavailable) else Ok(id)
      ensures Open(if result.Ok? then Some(Inserted(result.value)) else None)
      ensures result.Ok? ==> && result.value in system.model.db.jobs
                             && system.model.db.jobs[result.value]
                                == NewJob(account, doc, system.cfg.maxAttempts, system.clock)
      ensures system.Sound() && system.Grew()
    {
      hide Inv, Run, After, Faults, Deeds, Mine, Faulty, Yields, InsertJob;
      var outcome := session.Commit();
      InsertYields(system.model, now, r, id, outcome);
      if !outcome.Acknowledged? {
        Perform(Insert(r, id, outcome), None);
        return Err(DatabaseUnavailable);
      }
      InsertedRow(system.model.db, system.db.tables, id, account, doc, system.cfg.maxAttempts, now);
      Perform(Insert(r, id, outcome), Some(Inserted(id)));
      return Ok(id);
    }

    /** The enqueue after the commit. */
    method PublishJob(job: Uuid, account: nat, doc: Uuid) returns (ok: bool)
      requires system.Sound() && Open(Some(Inserted(job)))
      requires job in system.model.db.jobs && system.model.db.jobs[job].account == account
               && system.model.db.jobs[job].doc == doc
      modifies system, system.db, system.store, system.queue, system.stop, system.log
      ensures var k := PublishWork(r, system.log.weather, old(system.log.count));
              system.Followed(k.steps, k.next) && ok == k.failure.None?
      ensures job in system.model.db.jobs && system.model.db.jobs[job].account == account
              && system.model.db.jobs[job].doc == doc
      ensures ok ==> job in system.queue.state.ready
      ensures system.Sound() && system.Grew() && Open(None)
    {
      hide Inv, Run, After, Faults, Deeds, Mine, Faulty, Yields;
      system.Await();
      PublishYields(system.model, system.clock, r);
      AbandonYields(system.model, system.clock, r);
      var send := system.queue.Enqueue(job);
      ok := send.Sent?;
      if ok || send.published {
        Perform(Publish(r), None);
      } else {
        Perform(Abandon(r), None);
      }
    }

    /** `create` does what CreateWork says for the answers it got.  A job that is accepted is committed for the account
        and document of the request and then waits in the queue; a refusal is true when it is given. */
    method Create(account: nat, doc: Uuid) returns (result: Result<Uuid, ApiError>, ghost seen: Sights)
      requires system.Sound() && Open(None)
      modifies system, system.db, system.store, system.queue, system.stop, system.log
      ensures var id := system.IdAt(old(system.log.count) + 3);
              var k := CreateWork(r, system.log.weather, old(system.log.count), account, doc, system.cfg.threshold, id,
                                  RepliesOf(seen, account, doc, id));
              && system.Followed(k.steps, k.next)
              && result == if k.failure.None? then Ok(id) else Err(k.failure.value)
      ensures system.Passed(|old(system.trace)|, seen.find) && system.Passed(|old(system.trace)|, seen.check)
      ensures system.Passed(|old(system.trace)|, seen.depth) && system.Passed(|old(system.trace)|, seen.insert)
      ensures result.Ok? ==> && result.value in system.model.db.jobs && result.value in system.queue.state.ready
                             && system.model.db.jobs[result.value].account == account
                             && system.model.db.jobs[result.value].doc == doc
      ensures result.Err? ==> Justified(result.error, account, doc)
      ensures system.Sound() && system.Grew() && Open(None)
    {
      hide Inv, Run, After, Faults, Deeds, Mine, Faulty, Yields, Justified, PassedIn, ValidateWork, AdmitWork, Next,
           HasActiveJob, IsUploaded, System.Sound, CallLog.Troubles, FailedCalls, System.IdAt;
      ghost var before, o, n := system.deeds, system.log.weather, system.log.count;
      ghost var t := system.cfg.threshold;
      ghost var id, start := system.IdAt(n + 3), |system.trace|;
      var session := new Session(system.db);
      var error;
      ghost var find, check;
      error, find, check := Validate(session, account, doc);
      ghost var past, mid := system.trace, |system.trace|;
      seen := Sights(find, check, find, find);
      ghost var a := RepliesOf(seen, account, doc, id);
      CreateGoesOn(r, o, n, account, doc, a.found, a.uploaded);
      if error.Some? {
        Joined(before, ValidateWork(r, o, n, account, doc, a.found, a.uploaded),
               AdmitWork(r, o, n + 2, t, id, a.ready, a.taken, a.busy));
        result := Err(error.value);
        return;
      }
      ghost var depth, insert;
      result, depth, insert := Admit(session, account, doc);
      PassedStays(system.cfg, past, system.trace, start, start, find);
      PassedStays(system.cfg, past, system.trace, start, start, check);
      PassedStays(system.cfg, system.trace, system.trace, mid, start, depth);
      PassedStays(system.cfg, system.trace, system.trace, mid, start, insert);
      seen := Sights(find, check, depth, insert);
      a := RepliesOf(seen, account, doc, id);
      Joined(before, ValidateWork(r, o, n, account, doc, a.found, a.uploaded),
               AdmitWork(r, o, n + 2, t, id, a.ready, a.taken, a.busy));
    }

    /** From the depth read on. */
    method Admit(session: Session, account: nat, doc: Uuid)
      returns (result: Result<Uuid, ApiError>, ghost depth: State, ghost insert: State)
      requires system.Sound() && Open(Some(Validated(account, doc))) && session.db == system.db && !session.dirty
      modifies system, system.db, system.store, system.queue, system.stop, system.log, session
      ensures var n := old(system.log.count);
              var id := system.IdAt(n + 1);
              var k := AdmitWork(r, system.log.weather, n, system.cfg.threshold, id, |depth.broker.ready|,
                                 id in insert.db.jobs, HasActiveJob(insert.db.jobs, account, doc));
              && system.Followed(k.steps, k.next)
              && result == if k.failure.None? then Ok(id) else Err(k.failure.value)
      ensures system.Passed(|old(system.trace)|, depth) && system.Passed(|old(system.trace)|, insert)
      ensures result.Ok? ==> && result.value in system.model.db.jobs && result.value in system.queue.state.ready
                             && system.model.db.jobs[result.value].account == account
                             && system.model.db.jobs[result.value].doc == doc
      ensures result.Err? ==> Justified(result.error, account, doc)
      ensures system.Sound() && system.Grew() && Open(None)
    {
      hide Inv, Run, After, Faults, Deeds, Mine, Faulty, Yields, Justified, PassedIn, DepthWork, AdmitWork,
           CommitAndPublishWork, HasActiveJob, System.Sound, CallLog.Troubles, FailedCalls, System.IdAt;
      ghost var before, o, n := system.deeds, system.log.weather, system.log.count;
      ghost var start := |system.trace|;
      var error;
      error, depth := CheckBackpressure(account, doc);
      ghost var past, mid := system.trace, |system.trace|;
      ghost var ready, t, id := |depth.broker.ready|, system.cfg.threshold, system.IdAt(n + 1);
      if error.Some? {
        insert := depth;
        AdmitJoins(before, r, o, n, t, id, ready, id in insert.db.jobs, HasActiveJob(insert.db.jobs, account, doc));
        result := Err(error.value);
        return;
      }
      result, insert := InsertAndPublish(session, account, doc);
      PassedStays(system.cfg, past, system.trace, start, start, depth);
      PassedStays(system.cfg, system.trace, system.trace, mid, start, insert);
      AdmitJoins(before, r, o, n, t, id, ready, id in insert.db.jobs, HasActiveJob(insert.db.jobs, account, doc));
    }

    /** Commit precedes visibility: the row is committed before its id is published. */
    method InsertAndPublish(session: Session, account: nat, doc: Uuid)
      returns (result: Result<Uuid, ApiError>, ghost insert: State)
      requires system.Sound() && Open(Some(Admitted(account, doc))) && session.db == system.db && !session.dirty
      modifies system, system.db, system.store, system.queue, system.stop, system.log, session
      ensures var n := old(system.log.count);
              var id := system.IdAt(n);
              var k := CommitAndPublishWork(r, system.log.weather, n, id, id in insert.db.jobs,
                                            HasActiveJob(insert.db.jobs, account, doc));
              && system.Followed(k.steps, k.next)
              && result == if k.failure.None? then Ok(id) else Err(k.failure.value)
      ensures system.Passed(|old(system.trace)|, insert)
      ensures result.Ok? ==> && result.value in system.model.db.jobs && result.value in system.queue.state.ready
                             && system.model.db.jobs[result.value].account == account
                             && system.model.db.jobs[result.value].doc == doc
      ensures result.Err? ==> Justified(result.error, account, doc)
      ensures system.Sound() && system.Grew() && Open(None)
    {
      hide Inv, Run, After, Faults, Deeds, Mine, Faulty, Yields, PassedIn, InsertWork, CommitAndPublishWork,
           HasActiveJob, System.Sound, CallLog.Troubles, FailedCalls, System.IdAt;
      ghost var before, o, n := system.deeds, system.log.weather, system.log.count;
      result, insert := InsertRow(session, account, doc);
      ghost var past := system.trace;
      ghost var id := system.IdAt(n);
      ghost var busy := HasActiveJob(insert.db.jobs, account, doc);
      CommitAndPublishJoins(before, r, o, n, id, id in insert.db.jobs, busy);
      if result.Err? { return; }
      var ok := PublishJob(result.value, account, doc);
      if !ok { result := Err(QueueUnavailable); }
      PassedStays(system.cfg, past, system.trace, |old(system.trace)|, |old(system.trace)|, insert);
    }
  }

  lemma InsertedRow(before: Tables, after: Tables, id: Uuid, account: nat, doc: Uuid, maxAttempts: nat, now: nat)
    requires InsertJob(before, id, NewJob(account, doc, maxAttempts, now)).Ok?
    requires after == before.(jobs := InsertJob(before, id, NewJob(account, doc, maxAttempts, now)).value)
    ensures id in after.jobs && after.jobs[id] == NewJob(account, doc, maxAttempts, now)
  {
  }

  lemma RegisterIs(s: State, now: nat, account: nat, doc: Uuid)
    requires InsertDocument(s.db.docs, doc, Document(account, RawKey(account, doc))).Ok?
    ensures var docs := InsertDocument(s.db.docs, doc, Document(account, RawKey(account, doc))).value;
            && doc !in s.db.docs && docs == s.db.docs[doc := Document(account, RawKey(account, doc))]
            && Enabled(s, Register(account, doc)) && Enabled(s.(clock := now), Register(account, doc))
            && Do(s.(clock := now), Register(account, doc)) == s.(clock := now, db := s.db.(docs := docs))
            && !Faulty(Register(account, doc))
  {
    hide RawKey;
  }

  /** In a reachable state a new document can be registered exactly when its id is unused: no other document has its
      object key. */
  lemma RegisterMeets(s: State, account: nat, id: Uuid)
    requires Inv(s)
    ensures InsertDocument(s.db.docs, id, Document(account, RawKey(account, id))).Ok? <==> id !in s.db.docs
  {
    hide Shapes, Claims, Linked, Known, Awake, Pure, Artifacts, IndexHolds, RawKey;
    forall d: Uuid | d in s.db.docs && s.db.docs[d].key == RawKey(account, id) ensures d == id {
      RawKeyInjective(s.db.docs[d].account, d, account, id);
    }
  }

  class DocumentService {
    const system: System

    constructor (system: System)
      ensures this.system == system
    {
      this.system := system;
    }

    /** `create`: a new id, its object key, and one row that no document had before.  It fails when one of its two calls
        raises or the drawn id is taken, and otherwise the row is there; `seen` is the state that the INSERT met. */
    method Create(account: nat) returns (result: Result<Uuid, ApiError>, ghost seen: State)
      requires system.Sound()
      modifies system, system.db, system.store, system.queue, system.stop, system.log
      ensures var o, n, id := system.log.weather, old(system.log.count), system.IdAt(old(system.log.count));
              var refused := Fails(o, n) || id in seen.db.docs;
              && system.log.count == n + (if refused then 1 else 2)
              && result == (if refused || Fails(o, n + 1) then Err(DatabaseUnavailable) else Ok(id))
              && system.model.db
                 == (if refused || CommitBy(o, n + 1) == Unacknowledged(false) then seen.db
                     else seen.db.(docs := seen.db.docs[id := Document(account, RawKey(account, id))]))
      ensures system.Passed(|old(system.trace)|, seen) && system.deeds == old(system.deeds)
      ensures system.Sound() && system.Grew()
    {
      hide Inv, Run, After, Faults, Deeds, Faulty, RawKey, InsertDocument, PassedIn, System.Sound;
      system.Await();
      seen := system.model;
      ghost var past := system.trace;
      PassedHere(system, |old(system.trace)|);
      result := Insert(account);
      PassedStays(system.cfg, past, system.trace, |old(system.trace)|, |old(system.trace)|, seen);
    }

    /** The INSERT and the commit that ends its session. */
    method Insert(account: nat) returns (result: Result<Uuid, ApiError>)
      requires system.Sound()
      modifies system`model, system`trace, system`deeds, system.db, system.log
      ensures var o, n, id := system.log.weather, old(system.log.count), system.IdAt(old(system.log.count));
              var refused := Fails(o, n) || id in old(system.model).db.docs;
              && system.log.count == n + (if refused then 1 else 2)
              && result == (if refused || Fails(o, n + 1) then Err(DatabaseUnavailable) else Ok(id))
              && system.model.db
                 == (if refused || CommitBy(o, n + 1) == Unacknowledged(false) then old(system.model).db
                     else old(system.model).db.(docs := old(system.model).db.docs[id := Document(account, RawKey(account, id))]))
      ensures system.deeds == old(system.deeds)
      ensures system.Sound() && system.Grew()
    {
      hide Inv, Run, After, Faults, Deeds, Faulty, RawKey, InsertDocument;
      var session := new Session(system.db);
      var id := system.log.Uuid4();
      RegisterMeets(system.model, account, id);
      var row := session.CreateDocument(id, Document(account, RawKey(account, id)));
      if row.Err? { return Err(DatabaseUnavailable); }
      RegisterIs(system.model, system.clock, account, id);
      var outcome := session.Commit();
      if outcome != Unacknowledged(false) { system.Record(Register(account, id)); }
      result := if outcome.Acknowledged? then Ok(id) else Err(DatabaseUnavailable);
    }
  }
}
