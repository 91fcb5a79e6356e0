/** What every reachable state satisfies, step by step. */
module Invariants {
  import opened Wrappers
  import opened Keys
  import opened Schema
  import opened Protocol
  import opened Ownership
  import opened Wakeups
  import opened Contents

  ghost predicate Shapes(jobs: Jobs, now: nat)
  {
    forall j: Uuid :: j in jobs ==> RowShape(jobs[j], now)
  }

  ghost predicate Inv(s: State)
  {
    && Valid(s.cfg)
    && Shapes(s.db.jobs, s.clock)
    && IndexHolds(s.db.jobs)
    && Claims(s.db.jobs, s.workers, s.orphaned)
    && Linked(s.broker, s.workers)
    && Known(s.db.jobs, s.broker, s.requests)
    && Awake(s.db.jobs, s.broker, s.workers, s.requests, s.stranded)
    && Documents(s.db.docs, s.objects, s.db.jobs, s.requests)
    && Pure(s.cfg, s.objects, s.db.jobs, s.workers)
    && Artifacts(s.objects, s.db.jobs, s.db.artifacts)
  }

  lemma InvLater(s: State, now: nat)
    requires Inv(s) && s.clock <= now
    ensures Inv(s.(clock := now))
  {
  }

  lemma JobKnown(s: State, w: nat)
    requires Inv(s) && BusyAt(s.workers, w)
    ensures s.workers[w].job in s.db.jobs
    ensures ClaimMatches(s.db.jobs[s.workers[w].job], s.workers[w].stage)
    ensures Carries(s.cfg, s.objects, s.db.jobs[s.workers[w].job], s.workers[w].stage)
  {
  }

  lemma LinkedMove(b: Broker, ws: Tasks, w: nat, stage: Stage, published: multiset<Uuid>)
    requires Linked(b, ws) && BusyAt(ws, w)
    ensures Linked(b.(ready := b.ready + published), ws[w := Busy(ws[w].job, stage)])
  {
  }

  lemma KnownPublished(jobs: Jobs, b: Broker, rs: Requests, job: Uuid, published: multiset<Uuid>)
    requires Known(jobs, b, rs) && job in jobs
    requires published == multiset{} || published == multiset{job}
    ensures Known(jobs, b.(ready := b.ready + published), rs)
  {
  }

  /** A worker moves without writing a row, perhaps publishing its job or stranding it. */
  lemma InvMove(s: State, w: nat, stage: Stage, published: multiset<Uuid>, lost: set<Uuid>)
    requires Inv(s) && BusyAt(s.workers, w)
    requires Claimant(stage) ==> Claimant(s.workers[w].stage) && ClaimMatches(s.db.jobs[s.workers[w].job], stage)
    requires Claimant(s.workers[w].stage) && !Claimant(stage) ==> !IsStarted(s.db.jobs, s.workers[w].job)
    requires Carries(s.cfg, s.objects, s.db.jobs[s.workers[w].job], stage)
    requires published == multiset{} || published == multiset{s.workers[w].job}
    requires IsQueued(s.db.jobs, s.workers[w].job) && WakesAt(s.broker, s.workers, w, s.workers[w].job) ==>
               || s.workers[w].job in s.stranded + lost
               || s.workers[w].job in published
               || Wakes(Busy(s.workers[w].job, stage), s.workers[w].job, w in s.broker.unacked)
    ensures Inv(Move(s, w, stage).(broker := s.broker.(ready := s.broker.ready + published), stranded := s.stranded + lost))
  {
    hide Shapes, Claims, Linked, Known, Awake, Documents, Pure, Artifacts, IndexHolds, Carries, ClaimMatches;
    JobKnown(s, w);
    LinkedMove(s.broker, s.workers, w, stage, published);
    KnownPublished(s.db.jobs, s.broker, s.requests, s.workers[w].job, published);
    var job, was, jobs := s.workers[w].job, s.workers[w].stage, s.db.jobs;
    var b' := s.broker.(ready := s.broker.ready + published);
    var task := Some(Busy(job, stage));
    PureMove(s.cfg, s.objects, jobs, s.workers, w, task);
    AwakeWorker(jobs, s.broker, s.workers, s.requests, s.stranded, w, job, jobs, b', task, s.stranded + lost);
    if Claimant(stage) {
      ClaimsContinue(jobs, s.workers, s.orphaned, w, stage);
    } else if Claimant(was) {
      ClaimsDrop(jobs, s.workers, s.orphaned, w, task, {});
      assert s.orphaned + {} == s.orphaned;
    } else {
      ClaimsApart(jobs, s.workers, s.orphaned, w, task);
    }
  }

  lemma LinkedLeave(b: Broker, ws: Tasks, w: nat, b': Broker, task: Option<Task>)
    requires Linked(b, ws)
    requires b'.unacked == b.unacked - {w}
    ensures Linked(b', With(ws, w, task))
  {
  }

  lemma KnownLeave(jobs: Jobs, b: Broker, ws: Tasks, rs: Requests, w: nat)
    requires Known(jobs, b, rs) && Linked(b, ws) && Matched(jobs, ws)
    ensures Known(jobs, Returned(b, w), rs) && Known(jobs, Acked(b, w), rs)
  {
  }

  /** A worker gives up its task: it settles the message and rests, or leaves and gives the message back. */
  lemma InvLeave(s: State, w: nat, task: Option<Task>, b': Broker, stopping: set<nat>, more: set<Uuid>, lost: set<Uuid>)
    requires Inv(s) && w in s.workers
    requires task == None || task == Some(Idle)
    requires b' == Acked(s.broker, w) || b' == Returned(s.broker, w)
    requires more == if Claiming(Some(s.workers[w])) && IsStarted(s.db.jobs, s.workers[w].job) then {s.workers[w].job} else {}
    requires s.workers[w].Busy? && IsQueued(s.db.jobs, s.workers[w].job) && WakesAt(s.broker, s.workers, w, s.workers[w].job) ==>
               s.workers[w].job in s.stranded + lost || s.workers[w].job in b'.ready
    ensures Inv(s.(broker := b', workers := With(s.workers, w, task), stopping := stopping,
                   orphaned := s.orphaned + more, stranded := s.stranded + lost))
  {
    hide Shapes, Owned, Exclusive, Matched, Linked, Known, Awake, Documents, Pure, Artifacts, IndexHolds;
    var jobs := s.db.jobs;
    var job := if s.workers[w].Busy? then s.workers[w].job else 0;
    LinkedLeave(s.broker, s.workers, w, b', task);
    KnownLeave(jobs, s.broker, s.workers, s.requests, w);
    PureMove(s.cfg, s.objects, jobs, s.workers, w, task);
    AwakeWorker(jobs, s.broker, s.workers, s.requests, s.stranded, w, job, jobs, b', task, s.stranded + lost);
    if Claiming(Some(s.workers[w])) {
      ClaimsDrop(jobs, s.workers, s.orphaned, w, task, more);
    } else {
      ClaimsApart(jobs, s.workers, s.orphaned, w, task);
      assert s.orphaned + more == s.orphaned;
    }
  }

  lemma JobUploaded(s: State, job: Uuid)
    requires Documents(s.db.docs, s.objects, s.db.jobs, s.requests) && job in s.db.jobs
    ensures Uploaded(s.db.docs, s.objects, s.db.jobs[job].account, s.db.jobs[job].doc)
  {
  }

  /** What one UPDATE keeps, ownership, wake-ups and artifact rows aside. */
  lemma RowWritten(s: State, job: Uuid, row: Job)
    requires Inv(s) && job in s.db.jobs && SameDocument(s.db.jobs[job], row)
    requires RowShape(row, s.clock)
    ensures var jobs := s.db.jobs[job := row];
            && Shapes(jobs, s.clock)
            && Known(jobs, s.broker, s.requests)
            && Documents(s.db.docs, s.objects, jobs, s.requests)
            && Pure(s.cfg, s.objects, jobs, s.workers)
  {
    hide Owned, Exclusive, Linked, Awake, Documents, Pure, Artifacts, IndexHolds, RowShape;
    JobUploaded(s, job);
    DocumentsWrite(s.db.docs, s.objects, s.db.jobs, s.requests, job, row);
    PureWrite(s.cfg, s.objects, s.db.jobs, s.workers, job, row);
  }

  // ------------------------------------------------------ steps that write a row

  lemma ClaimedShape(row: Job, now: nat)
    requires RowShape(row, now) && row.status.Queued?
    ensures RowShape(Stamp(row, Status.Started, None, now), now)
    ensures LifeStep(LifeOf(row), LifeOf(Stamp(row, Status.Started, None, now)))
  {
  }

  /** The committed claim: the winner owns the row, or nobody does when the winner never learns. */
  lemma InvClaimed(s: State, w: nat, stage: Stage, more: set<Uuid>)
    requires Inv(s) && BusyAt(s.workers, w) && !Claimant(s.workers[w].stage) && IsQueued(s.db.jobs, s.workers[w].job)
    requires var row := Stamp(s.db.jobs[s.workers[w].job], Status.Started, None, s.clock);
             || (stage == Claimed(Attempt(row.attempts, row.maxAttempts)) && more == {})
             || (stage == Raised && more == {s.workers[w].job})
    ensures var job := s.workers[w].job;
            var t := WithJobs(s, s.db.jobs[job := Stamp(s.db.jobs[job], Status.Started, None, s.clock)]);
            Inv(Move(t, w, stage).(orphaned := s.orphaned + more))
  {
    hide Shapes, Owned, Exclusive, Linked, Known, Awake, Documents, Pure, Artifacts, IndexHolds, RowShape;
    var jobs, job := s.db.jobs, s.workers[w].job;
    var row := Stamp(jobs[job], Status.Started, None, s.clock);
    var jobs', task := jobs[job := row], Some(Busy(job, stage));
    assert RowShape(jobs[job], s.clock) by { ShapeOf(s, job); }
    ClaimedShape(jobs[job], s.clock);
    RowWritten(s, job, row);
    ArtifactsWrite(s.objects, jobs, s.db.artifacts, job, row);
    UpdateKeepsIndex(jobs, job, Status.Started, Status.Queued, None, s.clock);
    LinkedMove(s.broker, s.workers, w, stage, multiset{});
    assert s.broker.(ready := s.broker.ready + multiset{}) == s.broker;
    PureMove(s.cfg, s.objects, jobs', s.workers, w, task);
    AwakeWorker(jobs, s.broker, s.workers, s.requests, s.stranded, w, job, jobs', s.broker, task, s.stranded);
    if stage.Claimed? {
      ClaimsAcquire(jobs, s.workers, s.orphaned, w, row, stage);
      assert s.orphaned + more == s.orphaned;
    } else {
      ClaimsWrite(jobs, s.workers, s.orphaned, job, row, more);
      ClaimsApart(jobs', s.workers, s.orphaned + more, w, task);
    }
  }

  lemma ShapeOf(s: State, job: Uuid)
    requires Shapes(s.db.jobs, s.clock) && job in s.db.jobs
    ensures RowShape(s.db.jobs[job], s.clock)
  {
  }

  lemma FailedShape(row: Job, error: string, now: nat)
    requires RowShape(row, now) && row.status.Started?
    ensures var r := Stamp(row, FailureStatus(Attempt(row.attempts, row.maxAttempts)), Some(error), now);
            RowShape(r, now) && LifeStep(LifeOf(row), LifeOf(r))
  {
  }

  /** The committed status update of `_handle_failure`. */
  lemma InvResolved(s: State, w: nat, error: string, stage: Stage, lost: set<Uuid>)
    requires Inv(s) && BusyAt(s.workers, w) && s.workers[w].stage.Failing? && IsStarted(s.db.jobs, s.workers[w].job)
    requires stage == Requeued || stage == Settling(false) || stage == Raised
    requires lost <= {s.workers[w].job}
    requires FailureStatus(s.workers[w].stage.run).Queued? ==>
               || s.workers[w].job in s.stranded + lost
               || Wakes(Busy(s.workers[w].job, stage), s.workers[w].job, w in s.broker.unacked)
    ensures var job := s.workers[w].job;
            var row := Stamp(s.db.jobs[job], FailureStatus(s.workers[w].stage.run), Some(error), s.clock);
            Inv(Move(WithJobs(s, s.db.jobs[job := row]), w, stage).(stranded := s.stranded + lost))
  {
    hide Shapes, Owned, Exclusive, Matched, Linked, Known, Awake, Documents, Pure, Artifacts, IndexHolds, RowShape;
    var jobs, job, run := s.db.jobs, s.workers[w].job, s.workers[w].stage.run;
    var status := FailureStatus(run);
    var row := Stamp(jobs[job], status, Some(error), s.clock);
    var jobs', task := jobs[job := row], Some(Busy(job, stage));
    JobKnown(s, w);
    assert run == Attempt(jobs[job].attempts, jobs[job].maxAttempts);
    assert RowShape(jobs[job], s.clock) by { ShapeOf(s, job); }
    FailedShape(jobs[job], error, s.clock);
    RowWritten(s, job, row);
    ArtifactsWrite(s.objects, jobs, s.db.artifacts, job, row);
    UpdateKeepsIndex(jobs, job, status, Status.Started, Some(error), s.clock);
    LinkedMove(s.broker, s.workers, w, stage, multiset{});
    assert s.broker.(ready := s.broker.ready + multiset{}) == s.broker;
    PureMove(s.cfg, s.objects, jobs', s.workers, w, task);
    ClaimsResolve(jobs, s.workers, s.orphaned, w, row, stage);
    AwakeWorker(jobs, s.broker, s.workers, s.requests, s.stranded, w, job, jobs', s.broker, task, s.stranded + lost);
  }

  lemma CompletedShape(row: Job, now: nat)
    requires RowShape(row, now) && row.status.Started?
    ensures RowShape(Stamp(row, Status.Completed, None, now), now)
    ensures LifeStep(LifeOf(row), LifeOf(Stamp(row, Status.Completed, None, now)))
  {
  }

  /** The committed completion transaction, whether or not the worker learns of it. */
  lemma InvCompleted(s: State, w: nat, artifact: Uuid, stage: Stage)
    requires Inv(s) && BusyAt(s.workers, w) && s.workers[w].stage.Stored?
    requires stage == Acking(s.workers[w].stage.run) || stage == Failing(s.workers[w].stage.run)
    requires CompletedTables(s.db, s.workers[w].job, s.workers[w].stage.target, artifact, s.clock).Ok?
    ensures var db := CompletedTables(s.db, s.workers[w].job, s.workers[w].stage.target, artifact, s.clock).value;
            Inv(Move(s.(db := db), w, stage))
  {
    hide Shapes, Owned, Exclusive, Matched, Linked, Known, Awake, Documents, Pure, Artifacts, IndexHolds, RowShape,
         CompletedTables, UpsertArtifact;
    var jobs, job := s.db.jobs, s.workers[w].job;
    JobKnown(s, w);
    var row := Stamp(jobs[job], Status.Completed, None, s.clock);
    var jobs', task := jobs[job := row], Some(Busy(job, stage));
    assert RowShape(jobs[job], s.clock) by { ShapeOf(s, job); }
    CompletedShape(jobs[job], s.clock);
    ArtifactsComplete(s.objects, s.db, job, artifact, s.clock);
    UpdateKeepsIndex(jobs, job, Status.Completed, Status.Started, None, s.clock);
    LinkedMove(s.broker, s.workers, w, stage, multiset{});
    assert s.broker.(ready := s.broker.ready + multiset{}) == s.broker;
    RowWritten(s, job, row);
    PureMove(s.cfg, s.objects, jobs', s.workers, w, task);
    ClaimsResolve(jobs, s.workers, s.orphaned, w, row, stage);
    AwakeWorker(jobs, s.broker, s.workers, s.requests, s.stranded, w, job, jobs', s.broker, task, s.stranded);
  }

  // ------------------------------------------------------- requests and clients

  lemma KnownRequest(jobs: Jobs, b: Broker, rs: Requests, r: nat, request: Option<Request>)
    requires Known(jobs, b, rs)
    requires request.Some? && request.value.Inserted? ==> request.value.job in jobs
    ensures Known(jobs, b, WithRequest(rs, r, request))
  {
  }

  function WithRequest(rs: Requests, r: nat, request: Option<Request>): (q: Requests)
  {
    match request
    case Some(v) => rs[r := v]
    case None => rs - {r}
  }

  lemma DocumentsRequest(docs: map<Uuid, Document>, objects: Objects, jobs: Jobs, rs: Requests, r: nat, request: Option<Request>)
    requires Documents(docs, objects, jobs, rs)
    requires request.Some? && !request.value.Inserted? ==> Uploaded(docs, objects, request.value.account, request.value.doc)
    ensures Documents(docs, objects, jobs, WithRequest(rs, r, request))
  {
  }

  /** A request moves or ends without inserting. */
  lemma InvRequest(s: State, r: nat, request: Option<Request>, published: multiset<Uuid>, lost: set<Uuid>)
    requires Inv(s)
    requires request.Some? ==> !request.value.Inserted? && Uploaded(s.db.docs, s.objects, request.value.account, request.value.doc)
    requires published == multiset{} || (r in s.requests && s.requests[r].Inserted? && published == multiset{s.requests[r].job})
    requires r in s.requests && s.requests[r].Inserted? ==> s.requests[r].job in lost || s.requests[r].job in published
    ensures Inv(s.(requests := WithRequest(s.requests, r, request), stranded := s.stranded + lost,
                   broker := s.broker.(ready := s.broker.ready + published)))
  {
    hide Shapes, Claims, Linked, Awake, Documents, Pure, Artifacts, IndexHolds;
    var rs' := WithRequest(s.requests, r, request);
    var b' := s.broker.(ready := s.broker.ready + published);
    LinkedReady(s.broker, s.workers, b'.ready);
    KnownRequest(s.db.jobs, s.broker, s.requests, r, request);
    if published != multiset{} {
      KnownPublished(s.db.jobs, s.broker, rs', s.requests[r].job, published);
    } else {
      assert b' == s.broker;
    }
    DocumentsRequest(s.db.docs, s.objects, s.db.jobs, s.requests, r, request);
    AwakeRequest(s.db.jobs, s.broker, s.workers, s.requests, s.stranded, r, s.db.jobs, b', rs', s.stranded + lost);
  }

  lemma LinkedReady(b: Broker, ws: Tasks, ready: multiset<Uuid>)
    requires Linked(b, ws)
    ensures Linked(b.(ready := ready), ws)
  {
  }

  lemma NewShape(account: nat, doc: Uuid, limit: nat, now: nat)
    requires limit >= 1
    ensures RowShape(NewJob(account, doc, limit, now), now)
  {
  }

  lemma ShapesWrite(jobs: Jobs, now: nat, job: Uuid, row: Job)
    requires Shapes(jobs, now) && RowShape(row, now)
    ensures Shapes(jobs[job := row], now)
  {
  }

  lemma KnownWrite(jobs: Jobs, b: Broker, rs: Requests, job: Uuid, row: Job)
    requires Known(jobs, b, rs)
    ensures Known(jobs[job := row], b, rs)
  {
  }

  lemma WorkersKnown(jobs: Jobs, ws: Tasks)
    requires Matched(jobs, ws)
    ensures forall w :: w in ws && ws[w].Busy? ==> ws[w].job in jobs
  {
  }

  /** A committed insert, whether or not the request learns of it. */
  lemma InvInserted(s: State, r: nat, job: Uuid, request: Option<Request>, lost: set<Uuid>)
    requires Inv(s) && r in s.requests && s.requests[r].Admitted?
    requires InsertJob(s.db, job, NewJob(s.requests[r].account, s.requests[r].doc, s.cfg.maxAttempts, s.clock)).Ok?
    requires (request == Some(Inserted(job)) && lost == {}) || (request == None && lost == {job})
    ensures var row := NewJob(s.requests[r].account, s.requests[r].doc, s.cfg.maxAttempts, s.clock);
            Inv(WithJobs(s, s.db.jobs[job := row]).(requests := WithRequest(s.requests, r, request), stranded := s.stranded + lost))
  {
    hide Shapes, Owned, Exclusive, Matched, Linked, Known, Awake, Documents, Pure, Artifacts, IndexHolds, RowShape;
    var account, doc := s.requests[r].account, s.requests[r].doc;
    var row := NewJob(account, doc, s.cfg.maxAttempts, s.clock);
    var jobs', rs' := s.db.jobs[job := row], WithRequest(s.requests, r, request);
    assert Uploaded(s.db.docs, s.objects, account, doc) by { RequestUploaded(s, r); }
    NewShape(account, doc, s.cfg.maxAttempts, s.clock);
    ShapesWrite(s.db.jobs, s.clock, job, row);
    InsertAndIndex(s.db, job, account, doc, s.cfg.maxAttempts, s.clock);
    KnownWrite(s.db.jobs, s.broker, s.requests, job, row);
    KnownRequest(jobs', s.broker, s.requests, r, request);
    DocumentsWrite(s.db.docs, s.objects, s.db.jobs, s.requests, job, row);
    DocumentsRequest(s.db.docs, s.objects, jobs', s.requests, r, request);
    WorkersKnown(s.db.jobs, s.workers);
    PureWrite(s.cfg, s.objects, s.db.jobs, s.workers, job, row);
    ArtifactsWrite(s.objects, s.db.jobs, s.db.artifacts, job, row);
    ClaimsWrite(s.db.jobs, s.workers, s.orphaned, job, row, {});
    assert s.orphaned + {} == s.orphaned;
    AwakeRequest(s.db.jobs, s.broker, s.workers, s.requests, s.stranded, r, jobs', s.broker, rs', s.stranded + lost);
  }

  lemma RequestUploaded(s: State, r: nat)
    requires Documents(s.db.docs, s.objects, s.db.jobs, s.requests) && r in s.requests && !s.requests[r].Inserted?
    ensures Uploaded(s.db.docs, s.objects, s.requests[r].account, s.requests[r].doc)
  {
  }

  lemma DocumentsRegister(docs: map<Uuid, Document>, objects: Objects, jobs: Jobs, rs: Requests, account: nat, doc: Uuid)
    requires Documents(docs, objects, jobs, rs) && doc !in docs
    ensures Documents(docs[doc := Document(account, RawKey(account, doc))], objects, jobs, rs)
  {
  }

  lemma InvRegister(s: State, account: nat, doc: Uuid)
    requires Inv(s) && doc !in s.db.docs
    ensures Inv(DoRegister(s, account, doc))
  {
    hide Shapes, Claims, Linked, Known, Awake, Documents, Pure, Artifacts, IndexHolds;
    DocumentsRegister(s.db.docs, s.objects, s.db.jobs, s.requests, account, doc);
  }

  lemma InvUpload(s: State, doc: Uuid, content: Bytes)
    requires Inv(s) && doc in s.db.docs
    ensures Inv(DoUpload(s, doc, content))
  {
    hide Shapes, Claims, Linked, Known, Awake, Pure, Artifacts, IndexHolds;
    assert s.db.docs[doc].key == RawKey(s.db.docs[doc].account, doc);
    hide Documents;
    var key := s.db.docs[doc].key;
    DocumentsPut(s.db.docs, s.objects, s.db.jobs, s.requests, key, content);
    ArtifactsPut(s.objects, s.db.jobs, s.db.artifacts, key, content);
    PureUpload(s.cfg, s.objects, s.db.jobs, s.workers, s.db.docs[doc].account, doc, content);
  }

  /** A worker process joins. */
  lemma InvStart(s: State, w: nat)
    requires Inv(s) && w !in s.workers
    ensures Inv(s.(workers := s.workers[w := Idle], stopping := s.stopping - {w}))
  {
    hide Shapes, Claims, Known, Awake, Documents, Pure, Artifacts, IndexHolds;
    var task := Some(Idle);
    ClaimsApart(s.db.jobs, s.workers, s.orphaned, w, task);
    PureMove(s.cfg, s.objects, s.db.jobs, s.workers, w, task);
    AwakeWorker(s.db.jobs, s.broker, s.workers, s.requests, s.stranded, w, 0, s.db.jobs, s.broker, task, s.stranded);
  }

  lemma DeliveredLinked(jobs: Jobs, b: Broker, ws: Tasks, rs: Requests, w: nat, job: Uuid)
    requires Linked(b, ws) && Known(jobs, b, rs) && job in b.ready
    ensures job in jobs
    ensures Linked(Broker(b.ready - multiset{job}, b.unacked[w := job]), ws[w := Busy(job, Delivered)])
    ensures Known(jobs, Broker(b.ready - multiset{job}, b.unacked[w := job]), rs)
  {
  }

  lemma InvDeliver(s: State, w: nat, job: Uuid)
    requires Inv(s) && w in s.workers && s.workers[w].Idle? && w !in s.broker.unacked && job in s.broker.ready
    ensures Inv(DoDeliver(s, w, job))
  {
    hide Shapes, Claims, Linked, Known, Awake, Documents, Pure, Artifacts, IndexHolds;
    var task := Some(Busy(job, Delivered));
    DeliveredLinked(s.db.jobs, s.broker, s.workers, s.requests, w, job);
    ClaimsApart(s.db.jobs, s.workers, s.orphaned, w, task);
    PureMove(s.cfg, s.objects, s.db.jobs, s.workers, w, task);
    AwakeDeliver(s.db.jobs, s.broker, s.workers, s.requests, s.stranded, w, job);
  }

  lemma LinkedAt(b: Broker, ws: Tasks, w: nat)
    requires Linked(b, ws) && w in b.unacked
    ensures w in ws && ws[w].Busy? && ws[w].job == b.unacked[w]
  {
  }

  /** The broker takes a message back while its worker keeps running. */
  lemma InvRedeliver(s: State, w: nat)
    requires Inv(s) && w in s.broker.unacked
    ensures Inv(s.(broker := Returned(s.broker, w)))
  {
    hide Shapes, Owned, Exclusive, Matched, Linked, Known, Awake, Documents, Pure, Artifacts, IndexHolds;
    LinkedAt(s.broker, s.workers, w);
    var b', job := Returned(s.broker, w), s.broker.unacked[w];
    LinkedLeave(s.broker, s.workers, w, b', Some(s.workers[w]));
    KnownLeave(s.db.jobs, s.broker, s.workers, s.requests, w);
    assert With(s.workers, w, Some(s.workers[w])) == s.workers;
    AwakeWorker(s.db.jobs, s.broker, s.workers, s.requests, s.stranded, w, job, s.db.jobs, b', Some(s.workers[w]), s.stranded);
  }

  lemma InvStore(s: State, w: nat)
    requires Inv(s) && BusyAt(s.workers, w) && s.workers[w].stage.Parsed?
    ensures Inv(DoStore(s, w))
  {
    hide Shapes, Claims, Linked, Known, Awake, Pure, Documents, Artifacts, IndexHolds;
    JobKnown(s, w);
    var g, job := s.workers[w].stage, s.workers[w].job;
    var key, content := ArtifactKey(g.target.account, g.target.doc), s.cfg.encode(g.markdown);
    var stage := Stored(g.run, g.target);
    PureStore(s.cfg, s.objects, s.db.jobs, s.workers, w);
    DocumentsPut(s.db.docs, s.objects, s.db.jobs, s.requests, key, content);
    ArtifactsPut(s.objects, s.db.jobs, s.db.artifacts, key, content);
    LinkedMove(s.broker, s.workers, w, stage, multiset{});
    assert s.broker.(ready := s.broker.ready + multiset{}) == s.broker;
    ClaimsContinue(s.db.jobs, s.workers, s.orphaned, w, stage);
    AwakeWorker(s.db.jobs, s.broker, s.workers, s.requests, s.stranded, w, job, s.db.jobs, s.broker, Some(Busy(job, stage)), s.stranded);
  }

  // ---------------------------------------------------------------- every step

  predicate QuietMove(s: State, w: nat, stage: Stage)
  {
    && BusyAt(s.workers, w) && s.workers[w].job in s.db.jobs
    && (Claimant(stage) ==> Claimant(s.workers[w].stage) && ClaimMatches(s.db.jobs[s.workers[w].job], stage))
    && (Claimant(s.workers[w].stage) && !Claimant(stage) ==> !IsStarted(s.db.jobs, s.workers[w].job))
    && (IsQueued(s.db.jobs, s.workers[w].job) && WakesAt(s.broker, s.workers, w, s.workers[w].job) ==>
          Wakes(Busy(s.workers[w].job, stage), s.workers[w].job, w in s.broker.unacked))
  }

  lemma InvQuiet(s: State, w: nat, stage: Stage)
    requires Inv(s) && QuietMove(s, w, stage)
    requires Carries(s.cfg, s.objects, s.db.jobs[s.workers[w].job], stage)
    ensures Inv(Move(s, w, stage))
  {
    hide Shapes, Claims, Linked, Known, Awake, Documents, Pure, Artifacts, IndexHolds, Carries, ClaimMatches;
    InvMove(s, w, stage, multiset{}, {});
    var t := Move(s, w, stage);
    assert t.(broker := s.broker.(ready := s.broker.ready + multiset{}), stranded := s.stranded + {}) == t;
  }

  lemma InvCheck(s: State, step: Step)
    requires Inv(s) && Enabled(s, step)
    requires step.ReadStatus? || step.SessionFails? || step.ClaimError?
    ensures Inv(Do(s, step))
  {
    hide Shapes, Claims, Linked, Known, Awake, Documents, Pure, Artifacts, IndexHolds;
    JobKnown(s, step.w);
    match step
    case ReadStatus(w) => InvQuiet(s, w, if IsQueued(s.db.jobs, s.workers[w].job) then Checked else Dropping);
    case SessionFails(w) => InvQuiet(s, w, Raised);
    case ClaimError(w) => InvQuiet(s, w, Nacking);
  }

  lemma InvRaise(s: State, step: Step)
    requires Inv(s) && Enabled(s, step)
    requires step.SettleRaises? || step.Raise?
    ensures Inv(Do(s, step))
  {
    hide Shapes, Claims, Linked, Known, Awake, Documents, Pure, Artifacts, IndexHolds;
    JobKnown(s, step.w);
    match step
    case SettleRaises(w) =>
      if s.workers[w].stage.Acking? { InvQuiet(s, w, Failing(s.workers[w].stage.run)); } else { InvQuiet(s, w, Raised); }
    case Raise(w) => InvQuiet(s, w, Failing(s.workers[w].stage.run));
  }

  lemma InvFetch(s: State, w: nat)
    requires Inv(s) && BusyAt(s.workers, w) && s.workers[w].stage.Claimed?
    ensures Inv(DoFetch(s, w)) && StageOf(DoFetch(s, w).workers, w).Fetched?
  {
    hide Shapes, Claims, Linked, Known, Awake, Pure, Artifacts, IndexHolds, RowShape;
    JobKnown(s, w);
    var job, run := s.workers[w].job, s.workers[w].stage.run;
    JobUploaded(s, job);
    var row := s.db.jobs[job];
    var versions := s.objects[RawKey(row.account, row.doc)];
    assert versions != [];
    hide Documents;
    InvQuiet(s, w, Fetched(run, Target(row.account, row.doc), versions[|versions| - 1]));
  }

  lemma InvParse(s: State, w: nat)
    requires Inv(s) && BusyAt(s.workers, w) && s.workers[w].stage.Fetched?
    ensures Inv(DoParse(s, w))
  {
    hide Shapes, Claims, Linked, Known, Awake, Documents, Pure, Artifacts, IndexHolds;
    JobKnown(s, w);
    var g := s.workers[w].stage;
    InvQuiet(s, w, Parsed(g.run, g.target, s.cfg.parse(g.content)));
  }

  lemma InvClaim(s: State, w: nat, commit: Commit)
    requires Inv(s) && BusyAt(s.workers, w) && s.workers[w].stage.Checked?
    ensures Inv(DoClaim(s, w, commit))
  {
    hide Shapes, Claims, Linked, Known, Awake, Documents, Pure, Artifacts;
    JobKnown(s, w);
    var jobs, job := s.db.jobs, s.workers[w].job;
    if !IsQueued(jobs, job) {
      InvQuiet(s, w, Dropping);
    } else {
      UpdateKeepsIndex(jobs, job, Status.Started, Status.Queued, None, s.clock);
      hide IndexHolds, UpdateStatus;
      var row := Stamp(jobs[job], Status.Started, None, s.clock);
      match commit
      case Acknowledged =>
        InvClaimed(s, w, Claimed(Attempt(row.attempts, row.maxAttempts)), {});
        assert s.orphaned + {} == s.orphaned;
      case Unacknowledged(applied) =>
        if applied { InvClaimed(s, w, Raised, {job}); } else { InvQuiet(s, w, Raised); }
    }
  }

  lemma InvComplete(s: State, w: nat, artifact: Uuid, commit: Commit)
    requires Inv(s) && BusyAt(s.workers, w) && s.workers[w].stage.Stored?
    ensures Inv(DoComplete(s, w, artifact, commit))
  {
    hide Shapes, Claims, Linked, Known, Awake, Documents, Pure, Artifacts, IndexHolds, CompletedTables;
    JobKnown(s, w);
    var run := s.workers[w].stage.run;
    var r := CompletedTables(s.db, s.workers[w].job, s.workers[w].stage.target, artifact, s.clock);
    if r.Ok? && commit != Unacknowledged(false) {
      InvCompleted(s, w, artifact, if commit.Acknowledged? then Acking(run) else Failing(run));
    } else {
      InvQuiet(s, w, Failing(run));
    }
  }

  lemma InvUnresolved(s: State, w: nat)
    requires Inv(s) && BusyAt(s.workers, w) && s.workers[w].stage.Failing?
    ensures Inv(Orphan(Move(s, w, Raised), s.workers[w].job))
  {
    hide Shapes, Owned, Exclusive, Matched, Linked, Known, Awake, Documents, Pure, Artifacts, IndexHolds;
    JobKnown(s, w);
    var job, task := s.workers[w].job, Some(Busy(s.workers[w].job, Raised));
    var more := if IsStarted(s.db.jobs, job) then {job} else {};
    LinkedMove(s.broker, s.workers, w, Raised, multiset{});
    assert s.broker.(ready := s.broker.ready + multiset{}) == s.broker;
    PureMove(s.cfg, s.objects, s.db.jobs, s.workers, w, task);
    AwakeWorker(s.db.jobs, s.broker, s.workers, s.requests, s.stranded, w, job, s.db.jobs, s.broker, task, s.stranded);
    ClaimsDrop(s.db.jobs, s.workers, s.orphaned, w, task, more);
    assert s.orphaned + {} == s.orphaned;
  }

  lemma InvResolve(s: State, w: nat, error: string, commit: Commit)
    requires Inv(s) && BusyAt(s.workers, w) && s.workers[w].stage.Failing?
    ensures Inv(DoResolve(s, w, error, commit))
  {
    hide Shapes, Claims, Linked, Known, Awake, Documents, Pure, Artifacts;
    JobKnown(s, w);
    var jobs, job, status := s.db.jobs, s.workers[w].job, FailureStatus(s.workers[w].stage.run);
    if commit == Unacknowledged(false) {
      InvUnresolved(s, w);
    } else if !IsStarted(jobs, job) {
      InvQuiet(s, w, Settling(false));
    } else {
      UpdateKeepsIndex(jobs, job, status, Status.Started, Some(error), s.clock);
      hide IndexHolds, UpdateStatus;
      var stage := if !commit.Acknowledged? then Raised else if status.Queued? then Requeued else Settling(false);
      var lost := if !commit.Acknowledged? && status.Queued? && w !in s.broker.unacked then {job} else {};
      InvResolved(s, w, error, stage, lost);
      assert s.stranded + {} == s.stranded;
    }
  }

  lemma InvReenqueue(s: State, w: nat, send: Send)
    requires Inv(s) && BusyAt(s.workers, w) && s.workers[w].stage.Requeued?
    ensures Inv(DoReenqueue(s, w, send))
  {
    hide Shapes, Claims, Linked, Known, Awake, Documents, Pure, Artifacts, IndexHolds;
    JobKnown(s, w);
    var job := s.workers[w].job;
    var sent := send.Sent? || send.published;
    var stage := if send.Broken? then Raised else Settling(sent);
    var lost := if sent || (send.Broken? && w in s.broker.unacked) then {} else {job};
    InvMove(s, w, stage, if sent then multiset{job} else multiset{}, lost);
    assert s.stranded + {} == s.stranded && s.broker.ready + multiset{} == s.broker.ready;
  }

  /** Ack and rest, nack and rest, or leave. */
  lemma InvSettle(s: State, w: nat)
    requires Inv(s) && Enabled(s, Settle(w))
    ensures Inv(DoSettle(s, w))
  {
    hide Shapes, Claims, Linked, Known, Awake, Documents, Pure, Artifacts, IndexHolds;
    JobKnown(s, w);
    InvLeave(s, w, Some(Idle), Acked(s.broker, w), s.stopping, {}, {});
    assert s.stranded + {} == s.stranded && s.orphaned + {} == s.orphaned;
  }

  lemma InvNack(s: State, w: nat)
    requires Inv(s) && Enabled(s, Nack(w))
    ensures Inv(DoNack(s, w))
  {
    hide Shapes, Claims, Linked, Known, Awake, Documents, Pure, Artifacts, IndexHolds;
    if WakesAt(s.broker, s.workers, w, s.workers[w].job) { ReturnedWakes(s, w); }
    InvLeave(s, w, Some(Idle), Returned(s.broker, w), s.stopping, {}, {});
    assert s.stranded + {} == s.stranded && s.orphaned + {} == s.orphaned;
  }

  /** A worker that gives its message back leaves a witness in its place. */
  lemma ReturnedWakes(s: State, w: nat)
    requires Linked(s.broker, s.workers) && BusyAt(s.workers, w)
    requires WakesAt(s.broker, s.workers, w, s.workers[w].job)
    ensures w in s.broker.unacked ==> s.workers[w].job in Returned(s.broker, w).ready
    ensures w !in s.broker.unacked ==> s.workers[w].stage.Requeued?
  {
  }

  lemma InvGone(s: State, w: nat, more: set<Uuid>, lost: set<Uuid>)
    requires Inv(s) && w in s.workers
    requires more == if Claiming(Some(s.workers[w])) && IsStarted(s.db.jobs, s.workers[w].job) then {s.workers[w].job} else {}
    requires lost == if s.workers[w].Busy? && s.workers[w].stage.Requeued? && w !in s.broker.unacked then {s.workers[w].job} else {}
    ensures Inv(Gone(s, w).(orphaned := s.orphaned + more, stranded := s.stranded + lost))
  {
    hide Shapes, Claims, Linked, Known, Awake, Documents, Pure, Artifacts, IndexHolds;
    if s.workers[w].Busy? && WakesAt(s.broker, s.workers, w, s.workers[w].job) { ReturnedWakes(s, w); }
    InvLeave(s, w, None, Returned(s.broker, w), s.stopping - {w}, more, lost);
  }

  lemma InvDie(s: State, w: nat)
    requires Inv(s) && w in s.workers
    ensures Inv(DoDie(s, w))
  {
    hide Shapes, Claims, Linked, Known, Awake, Documents, Pure, Artifacts, IndexHolds;
    if s.workers[w].Busy? { JobKnown(s, w); }
    var more := if Claiming(Some(s.workers[w])) && IsStarted(s.db.jobs, s.workers[w].job) then {s.workers[w].job} else {};
    var lost := if s.workers[w].Busy? && s.workers[w].stage.Requeued? && w !in s.broker.unacked then {s.workers[w].job} else {};
    InvGone(s, w, more, lost);
    assert s.stranded + {} == s.stranded && s.orphaned + {} == s.orphaned;
  }

  lemma InvExit(s: State, w: nat)
    requires Inv(s) && BusyAt(s.workers, w) && (s.workers[w].stage.Raised? || s.workers[w].stage.Delivered?)
    ensures Inv(Gone(s, w))
  {
    hide Inv;
    InvGone(s, w, {}, {});
    var t := Gone(s, w);
    assert t.(orphaned := s.orphaned + {}, stranded := s.stranded + {}) == t;
  }

  lemma InvBegin(s: State, w: nat)
    requires Inv(s) && BusyAt(s.workers, w) && s.workers[w].stage.Delivered?
    ensures Inv(DoBegin(s, w))
  {
    hide Shapes, Claims, Linked, Known, Awake, Documents, Pure, Artifacts, IndexHolds;
    JobKnown(s, w);
    if w in s.stopping { InvExit(s, w); } else { InvQuiet(s, w, Received); }
  }

  lemma InvApi(s: State, step: Step)
    requires Inv(s) && Enabled(s, step)
    requires step.Submit? || step.CheckDepth? || step.Insert? || step.Publish? || step.Abandon?
    ensures Inv(Do(s, step))
  {
    hide Shapes, Claims, Linked, Known, Awake, Documents, Pure, Artifacts, IndexHolds;
    var e: set<Uuid>, m: multiset<Uuid> := {}, multiset{};
    assert s.broker.ready + m == s.broker.ready && s.stranded + e == s.stranded;
    match step
    case Submit(r, account, doc) =>
      if Do(s, step) != s {
        SubmitUploaded(s, account, doc);
        InvRequest(s, r, Some(Validated(account, doc)), m, e);
      }
    case CheckDepth(r, misread) =>
      RequestUploaded(s, r);
      InvRequest(s, r, if (if misread then 0 else |s.broker.ready|) >= s.cfg.threshold then None
                       else Some(Admitted(s.requests[r].account, s.requests[r].doc)), m, e);
    case Insert(r, job, commit) =>
      if commit == Unacknowledged(false)
         || InsertJob(s.db, job, NewJob(s.requests[r].account, s.requests[r].doc, s.cfg.maxAttempts, s.clock)).Err? {
        InvRequest(s, r, None, m, e);
      } else {
        InvInserted(s, r, job, if commit.Acknowledged? then Some(Inserted(job)) else None,
                    if commit.Acknowledged? then e else {job});
      }
    case Publish(r) => InvRequest(s, r, None, multiset{s.requests[r].job}, e);
    case Abandon(r) => InvRequest(s, r, None, m, if s.requests[r].Inserted? then {s.requests[r].job} else e);
  }

  lemma SubmitUploaded(s: State, account: nat, doc: Uuid)
    requires Documents(s.db.docs, s.objects, s.db.jobs, s.requests)
    requires GetDocument(s.db.docs, doc, account).Some? && s.db.docs[doc].key in s.objects
    ensures Uploaded(s.db.docs, s.objects, account, doc)
  {
  }

  lemma InvDo(s: State, step: Step)
    requires Inv(s) && Enabled(s, step)
    ensures Inv(Do(s, step))
  {
    hide Inv;
    match step
    case Register(account, doc) => InvRegister(s, account, doc);
    case Upload(doc, content) => InvUpload(s, doc, content);
    case Submit(_, _, _) => InvApi(s, step);
    case Start(w) => InvStart(s, w);
    case Stop(w) => InvStop(s, w);
    case CheckDepth(_, _) => InvApi(s, step);
    case Insert(_, _, _) => InvApi(s, step);
    case Publish(_) => InvApi(s, step);
    case Abandon(_) => InvApi(s, step);
    case Deliver(w, job) => InvDeliver(s, w, job);
    case Begin(w) => InvBegin(s, w);
    case ReadStatus(_) => InvCheck(s, step);
    case SessionFails(_) => InvCheck(s, step);
    case Claim(w, commit) => InvClaim(s, w, commit);
    case ClaimError(_) => InvCheck(s, step);
    case Settle(w) => InvSettle(s, w);
    case SettleRaises(_) => InvRaise(s, step);
    case Nack(w) => InvNack(s, w);
    case Fetch(w) => InvFetch(s, w);
    case Parse(w) => InvParse(s, w);
    case Store(w) => InvStore(s, w);
    case Complete(w, artifact, commit) => InvComplete(s, w, artifact, commit);
    case Raise(_) => InvRaise(s, step);
    case Resolve(w, error, commit) => InvResolve(s, w, error, commit);
    case Reenqueue(w, send) => InvReenqueue(s, w, send);
    case Exit(w) => InvExit(s, w);
    case Die(w) => InvDie(s, w);
    case Redeliver(w) => InvRedeliver(s, w);
  }

  lemma InvStop(s: State, w: nat)
    requires Inv(s)
    ensures Inv(s.(stopping := s.stopping + {w}))
  {
  }

  /** Every step of the system, faults included, keeps the invariant. */
  lemma InvApply(s: State, e: Event)
    requires Inv(s) && CanHappen(s, e)
    ensures Inv(Apply(s, e))
  {
    hide Inv, Enabled, Do;
    InvLater(s, e.now);
    EnabledLater(s, e.now, e.step);
    InvDo(s.(clock := e.now), e.step);
  }

  lemma EnabledLater(s: State, now: nat, step: Step)
    ensures Enabled(s.(clock := now), step) == Enabled(s, step)
  {
  }

  lemma {:induction false} InvRun(s: State, es: seq<Event>)
    requires Inv(s) && Run(s, es)
    ensures Inv(After(s, es))
  {
    hide Inv, CanHappen;
    if es != [] {
      InvRun(s, es[..|es| - 1]);
      InvApply(After(s, es[..|es| - 1]), es[|es| - 1]);
    }
  }

  /** The invariant holds in every state of every run that starts from an empty system. */
  lemma InvReachable(s: State)
    requires Reachable(s)
    ensures Inv(s)
  {
    var es :| Run(Initial(s.cfg), es) && After(Initial(s.cfg), es) == s;
    InvRun(Initial(s.cfg), es);
  }
}
