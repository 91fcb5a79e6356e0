/** Where the guarantees end: concrete runs of the code as it is. */
module Limits {
  import opened Wrappers
  import opened Keys
  import opened Schema
  import opened Protocol
  import opened Ownership
  import opened Wakeups
  import opened Contents
  import opened Invariants
  import opened Lifecycle
  import opened Permanence

  /** A run grows by one event. */
  lemma Grow(s: State, es: seq<Event>, step: Step)
    requires Run(s, es) && After(s, es).clock == 0 && Enabled(After(s, es), step)
    ensures Run(s, es + [Event(0, step)]) && After(s, es + [Event(0, step)]) == Do(After(s, es), step)
  {
    hide Enabled, Do;
    var all := es + [Event(0, step)];
    assert all[..|all| - 1] == es;
    assert After(s, es).(clock := 0) == After(s, es);
  }

  /** The state of a first job of account 1 for document 0, committed and not yet enqueued. */
  function Accepted(cfg: Config): (s: State)
  {
    var docs := map[0 := Document(1, RawKey(1, 0))];
    State(cfg, 0, map[RawKey(1, 0) := [[]]], Tables(docs, map[0 := NewJob(1, 0, cfg.maxAttempts, 0)], []),
          Broker(multiset{}, map[]), map[], {}, map[0 := Inserted(0)], {}, {})
  }

  function Uploaded0(cfg: Config): (s: State)
  {
    Initial(cfg).(db := Tables(map[0 := Document(1, RawKey(1, 0))], map[], []), objects := map[RawKey(1, 0) := [[]]])
  }

  lemma UploadedIsReachable(cfg: Config) returns (es: seq<Event>)
    ensures Run(Initial(cfg), es) && After(Initial(cfg), es) == Uploaded0(cfg)
  {
    var s := Initial(cfg);
    Grow(s, [], Register(1, 0));
    es := [] + [Event(0, Register(1, 0))];
    Grow(s, es, Upload(0, []));
    es := es + [Event(0, Upload(0, []))];
    FirstPut(RawKey(1, 0), []);
  }

  lemma FirstPut(key: string, content: Bytes)
    ensures Put(map[], key, content) == map[key := [content]]
  {
    var none: seq<Bytes> := [];
    assert none + [content] == [content];
  }

  lemma AcceptedIsReachable(cfg: Config) returns (es: seq<Event>)
    requires Valid(cfg) && cfg.threshold >= 1
    ensures Run(Initial(cfg), es) && After(Initial(cfg), es) == Accepted(cfg)
  {
    hide Run, After;
    var s := Initial(cfg);
    es := UploadedIsReachable(cfg);
    Grow(s, es, Submit(0, 1, 0));
    es := es + [Event(0, Submit(0, 1, 0))];
    assert After(s, es) == Uploaded0(cfg).(requests := map[0 := Validated(1, 0)]);
    Grow(s, es, CheckDepth(0, false));
    es := es + [Event(0, CheckDepth(0, false))];
    assert After(s, es) == Uploaded0(cfg).(requests := map[0 := Admitted(1, 0)]);
    Grow(s, es, Insert(0, 0, Acknowledged));
    es := es + [Event(0, Insert(0, 0, Acknowledged))];
  }

  /** An accepted job can be lost for good with no worker involved: the enqueue after the commit fails, the row stays
      QUEUED, no continuation ever touches it, and the index refuses every new job for the document. */
  lemma AcceptedJobCanBeLost(cfg: Config) returns (es: seq<Event>)
    requires Valid(cfg) && cfg.threshold >= 1
    ensures Run(Initial(cfg), es) && Forgotten(After(Initial(cfg), es), 0)
    ensures forall rest :: Run(After(Initial(cfg), es), rest) ==>
              RowAt(After(After(Initial(cfg), es), rest).db.jobs, 0) == Some(NewJob(1, 0, cfg.maxAttempts, 0))
    ensures forall rest, r, id, commit ::
              var t := After(Initial(cfg), es);
              Run(t, rest) && r in After(t, rest).requests && After(t, rest).requests[r] == Admitted(1, 0) ==>
                DoInsert(After(t, rest), r, id, commit) == Close(After(t, rest), r)
  {
    var s := Initial(cfg);
    es := AcceptedIsReachable(cfg);
    Grow(s, es, Abandon(0));
    es := es + [Event(0, Abandon(0))];
    var t := After(s, es);
    assert Forgotten(t, 0);
    hide Forgotten, Inv;
    InitialInv(cfg);
    InvRun(s, es);
    forall rest | Run(t, rest)
      ensures RowAt(After(t, rest).db.jobs, 0) == Some(NewJob(1, 0, cfg.maxAttempts, 0))
    {
      ForgottenForever(t, rest, 0);
    }
    forall rest, r, id, commit | Run(t, rest) && r in After(t, rest).requests && After(t, rest).requests[r] == Admitted(1, 0)
      ensures DoInsert(After(t, rest), r, id, commit) == Close(After(t, rest), r)
    {
      ForgottenForever(t, rest, 0);
      ActiveJobBlocks(After(t, rest), r, id, commit, 0);
    }
  }

  /** A swallowed QueueException is worse than a crash: the worker acks the only message of a job it has just
      requeued, and the job is forgotten; any other exception gives the message back. */
  lemma SwallowingForgets(s: State, w: nat)
    requires Inv(s) && BusyAt(s.workers, w) && s.workers[w].stage.Requeued? && w in s.broker.unacked
    requires IsQueued(s.db.jobs, s.workers[w].job)
    requires s.workers[w].job !in s.broker.ready
    requires forall v :: v in s.workers && v != w && s.workers[v].Busy? ==> s.workers[v].job != s.workers[w].job
    requires forall r: nat :: !PublishesAt(s.requests, r, s.workers[w].job)
    ensures Forgotten(DoSettle(DoReenqueue(s, w, Refused(false)), w), s.workers[w].job)
    ensures s.workers[w].job in Gone(DoReenqueue(s, w, Broken(false)), w).broker.ready
  {
    hide Shapes, Claims, Known, Awake, Documents, Pure, Artifacts, IndexHolds;
  }

  /** The only worker works on the only job. */
  function Working(cfg: Config, stage: Stage): (s: State)
  {
    Accepted(cfg).(requests := map[], broker := Broker(multiset{}, map[0 := 0]), workers := map[0 := Busy(0, stage)])
  }

  lemma WorkingIsReachable(cfg: Config) returns (es: seq<Event>)
    requires Valid(cfg) && cfg.threshold >= 1
    ensures Run(Initial(cfg), es) && After(Initial(cfg), es) == Working(cfg, Checked)
  {
    hide Run, After;
    var s := Initial(cfg);
    es := AcceptedIsReachable(cfg);
    Grow(s, es, Publish(0));
    es := es + [Event(0, Publish(0))];
    assert After(s, es) == Accepted(cfg).(requests := map[], broker := Broker(multiset{0}, map[]));
    Grow(s, es, Start(0));
    es := es + [Event(0, Start(0))];
    assert After(s, es) == Accepted(cfg).(requests := map[], broker := Broker(multiset{0}, map[]), workers := map[0 := Idle]);
    Grow(s, es, Deliver(0, 0));
    es := es + [Event(0, Deliver(0, 0))];
    assert After(s, es) == Working(cfg, Delivered);
    es := BeginReading(cfg, es);
  }

  lemma BeginReading(cfg: Config, es: seq<Event>) returns (fs: seq<Event>)
    requires Run(Initial(cfg), es) && After(Initial(cfg), es) == Working(cfg, Delivered)
    ensures Run(Initial(cfg), fs) && After(Initial(cfg), fs) == Working(cfg, Checked)
  {
    hide Run, After;
    var s := Initial(cfg);
    Grow(s, es, Begin(0));
    fs := es + [Event(0, Begin(0))];
    assert After(s, fs) == Working(cfg, Received);
    Grow(s, fs, ReadStatus(0));
    fs := fs + [Event(0, ReadStatus(0))];
  }

  lemma CrashOrphans(s: State, w: nat)
    requires BusyAt(s.workers, w) && s.workers[w].stage.Claimed? && w in s.broker.unacked
    requires IsStarted(s.db.jobs, s.workers[w].job) && s.broker.unacked[w] == s.workers[w].job
    ensures s.workers[w].job in DoDie(s, w).orphaned && s.workers[w].job in DoDie(s, w).broker.ready
  {
  }

  lemma ClaimedIsReachable(cfg: Config) returns (es: seq<Event>)
    requires Valid(cfg) && cfg.threshold >= 1
    ensures Run(Initial(cfg), es)
    ensures var t := After(Initial(cfg), es);
            && IsStarted(t.db.jobs, 0) && BusyAt(t.workers, 0) && t.workers[0].job == 0 && t.workers[0].stage.Claimed?
            && t.broker == Broker(multiset{}, map[0 := 0]) && t.clock == 0
  {
    hide Run, After;
    var s := Initial(cfg);
    es := WorkingIsReachable(cfg);
    Grow(s, es, Claim(0, Acknowledged));
    es := es + [Event(0, Claim(0, Acknowledged))];
  }

  /** One worker crash during processing leaves the job STARTED for ever: its message is redelivered, but no
      continuation with any number of workers changes the row. */
  lemma CrashInterruptsForGood(cfg: Config) returns (es: seq<Event>)
    requires Valid(cfg) && cfg.threshold >= 1
    ensures Run(Initial(cfg), es) && 0 in After(Initial(cfg), es).broker.ready
    ensures forall rest :: Run(After(Initial(cfg), es), rest) ==>
              IsStarted(After(After(Initial(cfg), es), rest).db.jobs, 0)
  {
    hide Run, After, Inv, DoDie;
    var s := Initial(cfg);
    es := ClaimedIsReachable(cfg);
    CrashOrphans(After(s, es), 0);
    Grow(s, es, Die(0));
    es := es + [Event(0, Die(0))];
    var t := After(s, es);
    InitialInv(cfg);
    InvRun(s, es);
    forall rest | Run(t, rest) ensures IsStarted(After(t, rest).db.jobs, 0) {
      InterruptedForever(t, rest, 0);
    }
  }

  // ------------------------------------------------ what the documentation says otherwise

  /** The only worker works on the only job, whose row is `row`. */
  function Solo(cfg: Config, row: Job, stage: Stage): (s: State)
  {
    Working(cfg, stage).(db := Tables(map[0 := Document(1, RawKey(1, 0))], map[0 := row], []))
  }

  function Row0(cfg: Config): (row: Job) { NewJob(1, 0, cfg.maxAttempts, 0) }

  function Row1(cfg: Config): (row: Job) { Stamp(Row0(cfg), Status.Started, None, 0) }

  lemma SoloWorking(cfg: Config, stage: Stage)
    ensures Solo(cfg, Row0(cfg), stage) == Working(cfg, stage)
  {
  }

  /** In a table of one row an update finds nothing to clash with. */
  lemma SoloUpdate(row: Job, status: Status, expected: Status, error: Option<string>)
    requires row.status == expected
    ensures UpdateStatus(map[0 := row], 0, status, expected, error, 0) == Ok(map[0 := Stamp(row, status, error, 0)])
  {
    var jobs: Jobs := map[0 := row];
    assert jobs[0 := Stamp(row, status, error, 0)] == map[0 := Stamp(row, status, error, 0)];
  }

  lemma SoloClaim(cfg: Config, row: Job, commit: Commit)
    requires row.status.Queued?
    ensures var started := Stamp(row, Status.Started, None, 0);
            DoClaim(Solo(cfg, row, Checked), 0, commit)
            == match commit
               case Acknowledged => Solo(cfg, started, Claimed(Attempt(started.attempts, started.maxAttempts)))
               case Unacknowledged(false) => Solo(cfg, row, Raised)
               case Unacknowledged(true) => Solo(cfg, started, Raised).(orphaned := {0})
  {
    SoloUpdate(row, Status.Started, Status.Queued, None);
    hide UpdateStatus, Stamp;
    var s := Solo(cfg, row, Checked);
    assert s.workers[0 := Busy(0, Raised)] == map[0 := Busy(0, Raised)];
    if commit.Acknowledged? {
      var started := Stamp(row, Status.Started, None, 0);
      var stage := Claimed(Attempt(started.attempts, started.maxAttempts));
      assert s.workers[0 := Busy(0, stage)] == map[0 := Busy(0, stage)];
    }
    var none: set<Uuid> := {};
    assert none + {0} == {0};
  }

  /** The commit of the claim raises: the message is not nacked, although the repository's README promises it; the
      exception ends the consumer.  The row is still QUEUED and the message is back. */
  lemma CommitErrorIsNotNacked(cfg: Config) returns (es: seq<Event>)
    requires Valid(cfg) && cfg.threshold >= 1
    ensures Run(Initial(cfg), es) && |es| >= 2
    ensures es[|es| - 2].step == Claim(0, Unacknowledged(false)) && es[|es| - 1].step == Exit(0)
    ensures var t := After(Initial(cfg), es);
            t.workers == map[] && t.broker.ready == multiset{0} && IsQueued(t.db.jobs, 0)
  {
    hide Run, After, DoClaim;
    var s := Initial(cfg);
    es := WorkingIsReachable(cfg);
    SoloWorking(cfg, Checked);
    SoloClaim(cfg, Row0(cfg), Unacknowledged(false));
    Grow(s, es, Claim(0, Unacknowledged(false)));
    es := es + [Event(0, Claim(0, Unacknowledged(false)))];
    Grow(s, es, Exit(0));
    es := es + [Event(0, Exit(0))];
  }

  /** A raising claim UPDATE, in contrast, is nacked, and the consumer goes on. */
  lemma UpdateErrorIsNacked(cfg: Config) returns (es: seq<Event>)
    requires Valid(cfg) && cfg.threshold >= 1
    ensures Run(Initial(cfg), es) && |es| >= 2
    ensures es[|es| - 2].step == ClaimError(0) && es[|es| - 1].step == Nack(0)
    ensures var t := After(Initial(cfg), es);
            t.workers == map[0 := Idle] && t.broker.ready == multiset{0} && IsQueued(t.db.jobs, 0)
  {
    hide Run, After;
    var s := Initial(cfg);
    es := WorkingIsReachable(cfg);
    Grow(s, es, ClaimError(0));
    es := es + [Event(0, ClaimError(0))];
    Grow(s, es, Nack(0));
    es := es + [Event(0, Nack(0))];
  }

  lemma FailingIsReachable(cfg: Config) returns (es: seq<Event>)
    requires Valid(cfg) && cfg.threshold >= 1
    ensures Run(Initial(cfg), es)
    ensures After(Initial(cfg), es) == Solo(cfg, Row1(cfg), Failing(Attempt(1, cfg.maxAttempts)))
  {
    hide Run, After, DoClaim;
    var s := Initial(cfg);
    es := WorkingIsReachable(cfg);
    SoloWorking(cfg, Checked);
    SoloClaim(cfg, Row0(cfg), Acknowledged);
    Grow(s, es, Claim(0, Acknowledged));
    es := es + [Event(0, Claim(0, Acknowledged))];
    assert After(s, es) == Solo(cfg, Row1(cfg), Claimed(Attempt(1, cfg.maxAttempts)));
    Grow(s, es, Raise(0));
    es := es + [Event(0, Raise(0))];
    var stage := Failing(Attempt(1, cfg.maxAttempts));
    assert Solo(cfg, Row1(cfg), Claimed(Attempt(1, cfg.maxAttempts))).workers[0 := Busy(0, stage)] == map[0 := Busy(0, stage)];
  }

  lemma FirstRow(cfg: Config)
    ensures Row1(cfg).status.Started?
  {
  }

  lemma SoloResolveRaises(cfg: Config, row: Job, stage: Stage)
    requires row.status.Started? && stage.Failing?
    ensures DoResolve(Solo(cfg, row, stage), 0, "", Unacknowledged(false)) == Solo(cfg, row, Raised).(orphaned := {0})
  {
    assert Solo(cfg, row, stage).workers[0 := Busy(0, Raised)] == map[0 := Busy(0, Raised)];
    var none: set<Uuid> := {};
    assert none + {0} == {0};
  }

  /** An attempt fails and the failure cannot be recorded: the message is not acked, although the repository's README
      promises it; the exception ends the consumer, the message is back, and the row stays STARTED. */
  lemma FailureIsNotAlwaysAcked(cfg: Config) returns (es: seq<Event>)
    requires Valid(cfg) && cfg.threshold >= 1
    ensures Run(Initial(cfg), es) && |es| >= 2
    ensures es[|es| - 2].step == Resolve(0, "", Unacknowledged(false)) && es[|es| - 1].step == Exit(0)
    ensures var t := After(Initial(cfg), es);
            t.workers == map[] && t.broker.ready == multiset{0} && IsStarted(t.db.jobs, 0)
  {
    hide Run, After, DoResolve, Row1;
    var s := Initial(cfg);
    es := FailingIsReachable(cfg);
    assert Row1(cfg).status.Started? by { FirstRow(cfg); }
    SoloResolveRaises(cfg, Row1(cfg), Failing(Attempt(1, cfg.maxAttempts)));
    Grow(s, es, Resolve(0, "", Unacknowledged(false)));
    es := es + [Event(0, Resolve(0, "", Unacknowledged(false)))];
    Grow(s, es, Exit(0));
    es := es + [Event(0, Exit(0))];
  }

  function Row2(cfg: Config): (row: Job) { Stamp(Row1(cfg), Status.Queued, Some("failed"), 0) }

  function Row3(cfg: Config): (row: Job) { Stamp(Row2(cfg), Status.Started, None, 0) }

  lemma RequeuedIsReachable(cfg: Config) returns (es: seq<Event>)
    requires Valid(cfg) && cfg.threshold >= 1 && cfg.maxAttempts >= 2
    ensures Run(Initial(cfg), es) && After(Initial(cfg), es) == Solo(cfg, Row2(cfg), Requeued)
  {
    hide Run, After;
    var s := Initial(cfg);
    es := FailingIsReachable(cfg);
    SoloUpdate(Row1(cfg), Status.Queued, Status.Started, Some("failed"));
    hide UpdateStatus;
    Grow(s, es, Resolve(0, "failed", Acknowledged));
    es := es + [Event(0, Resolve(0, "failed", Acknowledged))];
    assert Solo(cfg, Row1(cfg), Failing(Attempt(1, cfg.maxAttempts))).workers[0 := Busy(0, Requeued)] == map[0 := Busy(0, Requeued)];
  }

  lemma ReenqueuedIsReachable(cfg: Config) returns (es: seq<Event>)
    requires Valid(cfg) && cfg.threshold >= 1 && cfg.maxAttempts >= 2
    ensures Run(Initial(cfg), es) && After(Initial(cfg), es)
         == Solo(cfg, Row2(cfg), Settling(true)).(broker := Broker(multiset{0}, map[0 := 0]))
  {
    hide Run, After;
    var s := Initial(cfg);
    es := RequeuedIsReachable(cfg);
    Grow(s, es, Reenqueue(0, Sent));
    es := es + [Event(0, Reenqueue(0, Sent))];
    assert Solo(cfg, Row2(cfg), Requeued).workers[0 := Busy(0, Settling(true))] == map[0 := Busy(0, Settling(true))];
  }

  lemma SecondAttemptIsReachable(cfg: Config) returns (es: seq<Event>)
    requires Valid(cfg) && cfg.threshold >= 1 && cfg.maxAttempts >= 2
    ensures Run(Initial(cfg), es) && After(Initial(cfg), es) == Solo(cfg, Row2(cfg), Delivered)
  {
    hide Run, After, Row2, RawKey;
    var s := Initial(cfg);
    es := ReenqueuedIsReachable(cfg);
    Grow(s, es, Settle(0));
    es := es + [Event(0, Settle(0))];
    assert After(s, es) == Solo(cfg, Row2(cfg), Delivered).(broker := Broker(multiset{0}, map[]), workers := map[0 := Idle]);
    Grow(s, es, Deliver(0, 0));
    es := es + [Event(0, Deliver(0, 0))];
  }

  lemma SecondClaimIsReachable(cfg: Config) returns (es: seq<Event>)
    requires Valid(cfg) && cfg.threshold >= 1 && cfg.maxAttempts >= 2
    ensures Run(Initial(cfg), es) && After(Initial(cfg), es) == Solo(cfg, Row3(cfg), Claimed(Attempt(2, cfg.maxAttempts)))
  {
    hide Run, After, DoClaim;
    var s := Initial(cfg);
    es := SecondAttemptIsReachable(cfg);
    Grow(s, es, Begin(0));
    es := es + [Event(0, Begin(0))];
    assert After(s, es) == Solo(cfg, Row2(cfg), Received);
    Grow(s, es, ReadStatus(0));
    es := es + [Event(0, ReadStatus(0))];
    assert After(s, es) == Solo(cfg, Row2(cfg), Checked);
    SoloClaim(cfg, Row2(cfg), Acknowledged);
    Grow(s, es, Claim(0, Acknowledged));
    es := es + [Event(0, Claim(0, Acknowledged))];
  }

  lemma SecondFetchIsReachable(cfg: Config) returns (es: seq<Event>)
    requires Valid(cfg) && cfg.threshold >= 1 && cfg.maxAttempts >= 2
    ensures Run(Initial(cfg), es)
    ensures After(Initial(cfg), es) == Solo(cfg, Row3(cfg), Fetched(Attempt(2, cfg.maxAttempts), Target(1, 0), []))
  {
    hide Run, After, Stamp, RawKey;
    var s := Initial(cfg);
    es := SecondClaimIsReachable(cfg);
    assert Row3(cfg).account == 1 && Row3(cfg).doc == 0 by { ThirdRow(cfg); }
    Grow(s, es, Fetch(0));
    es := es + [Event(0, Fetch(0))];
    var stage := Fetched(Attempt(2, cfg.maxAttempts), Target(1, 0), []);
    assert Solo(cfg, Row3(cfg), Delivered).workers[0 := Busy(0, stage)] == map[0 := Busy(0, stage)];
  }

  lemma SecondParseIsReachable(cfg: Config) returns (es: seq<Event>)
    requires Valid(cfg) && cfg.threshold >= 1 && cfg.maxAttempts >= 2
    ensures Run(Initial(cfg), es)
    ensures After(Initial(cfg), es) == Solo(cfg, Row3(cfg), Parsed(Attempt(2, cfg.maxAttempts), Target(1, 0), cfg.parse([])))
  {
    hide Run, After, Row3, RawKey;
    var s := Initial(cfg);
    es := SecondFetchIsReachable(cfg);
    Grow(s, es, Parse(0));
    es := es + [Event(0, Parse(0))];
    var stage := Parsed(Attempt(2, cfg.maxAttempts), Target(1, 0), cfg.parse([]));
    assert Solo(cfg, Row3(cfg), Delivered).workers[0 := Busy(0, stage)] == map[0 := Busy(0, stage)];
  }

  lemma ThirdRow(cfg: Config)
    ensures Row3(cfg).account == 1 && Row3(cfg).doc == 0 && Row3(cfg).status.Started? && Row3(cfg).error == Some("failed")
  {
  }

  lemma SoloComplete(cfg: Config, s: State)
    requires s.db == Solo(cfg, Row3(cfg), Delivered).db && s.clock == 0
    requires s.workers == map[0 := Busy(0, Stored(Attempt(2, cfg.maxAttempts), Target(1, 0)))]
    ensures var t := DoComplete(s, 0, 0, Acknowledged);
            0 in t.db.jobs && t.db.jobs[0].status.Completed? && t.db.jobs[0].error == Some("failed")
  {
    ThirdRow(cfg);
    SoloUpdate(Row3(cfg), Status.Completed, Status.Started, None);
    hide Row3, RawKey, ArtifactKey;
  }

  /** A COMPLETED row can still carry the message of an earlier, failed attempt: nothing clears it. */
  lemma CompletedKeepsError(cfg: Config) returns (es: seq<Event>)
    requires Valid(cfg) && cfg.threshold >= 1 && cfg.maxAttempts >= 2
    ensures Run(Initial(cfg), es)
    ensures var t := After(Initial(cfg), es);
            0 in t.db.jobs && t.db.jobs[0].status.Completed? && t.db.jobs[0].error == Some("failed")
  {
    hide Run, After, Row3, Put, DoComplete;
    var s := Initial(cfg);
    es := SecondParseIsReachable(cfg);
    Grow(s, es, Store(0));
    es := es + [Event(0, Store(0))];
    var stage := Stored(Attempt(2, cfg.maxAttempts), Target(1, 0));
    assert After(s, es).workers == map[0 := Busy(0, stage)];
    SoloComplete(cfg, After(s, es));
    Grow(s, es, Complete(0, 0, Acknowledged));
    es := es + [Event(0, Complete(0, 0, Acknowledged))];
  }

  /** The row says so itself: its last attempt failed. */
  predicate LastAttemptFailed(row: Job)
  {
    row.status.Failed? || (row.status.Queued? && row.attempts >= 1)
  }

  /** In a reachable state the message contradicts docs/openapi_init.yaml, being there although the last attempt did not
      fail, if and only if the row is on or past its second attempt and has not failed it. */
  lemma ErrorOutlivesFailure(s: State, job: Uuid)
    requires Reachable(s) && job in s.db.jobs
    ensures var row := s.db.jobs[job];
            row.error.Some? && !LastAttemptFailed(row) <==> row.attempts >= 2 && (row.status.Started? || row.status.Completed?)
  {
    hide Claims, Linked, Known, Awake, Documents, Pure, Artifacts, IndexHolds;
    InvReachable(s);
    ShapeOf(s, job);
  }
}
