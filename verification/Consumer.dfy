/** `RabbitMQConsumer`: the loop over deliveries, `_handle` and `_handle_failure`. */
module Consumer {
  import opened Wrappers
  import opened Keys
  import opened Schema
  import opened Protocol
  import opened Ownership
  import opened Wakeups
  import opened Contents
  import opened Invariants
  import opened Scripts
  import opened Infrastructure
  import opened Effects
  import opened Cluster
  import opened Processing
  import Permanence

  /** The states in which `_handle` met the job's row: at the status read, at the claim, at the completion, at the failure
      update; and the id drawn for the artifact row. */
  datatype Seen = Seen(read: State, claim: State, complete: State, drawn: Uuid, record: State)

  /** The attempt that a claim in this state makes. */
  function RunOf(s: State, job: Uuid): (run: Attempt)
  {
    if job in s.db.jobs then Attempt(s.db.jobs[job].attempts + 1, s.db.jobs[job].maxAttempts) else Attempt(0, 0)
  }

  ghost function AnswersOf(seen: Seen, job: Uuid): (a: Answers)
  {
    Answers(IsQueued(seen.read.db.jobs, job), IsQueued(seen.claim.db.jobs, job), RunOf(seen.claim, job),
            seen.drawn, Free(seen.complete, job, seen.drawn), IsStarted(seen.record.db.jobs, job))
  }

  /** One turn of the loop: the state in which the consumer looked for a message, and what became of the one it took. */
  datatype Round =
    | Quiet(look: State)
    | GivenBack(look: State, job: Uuid)
    | Handled(look: State, job: Uuid, seen: Seen)

  /** How many turns took a message. */
  ghost function Taken(rounds: seq<Round>): (n: nat)
  {
    if rounds == [] then 0 else Taken(rounds[..|rounds| - 1]) + if rounds[|rounds| - 1].Quiet? then 0 else 1
  }

  lemma CompletedIs(after: Tables, before: Tables, job: Uuid, target: Target, artifact: Uuid, now: nat)
    requires CompletedTables(before, job, target, artifact, now) == Ok(after)
    ensures job in after.jobs && after.jobs[job].status.Completed?
  {
  }

  /** A failure update finds its row STARTED or already COMPLETED. */
  lemma FailureMeets(s: State, w: nat, error: string, now: nat)
    requires Inv(s) && BusyAt(s.workers, w) && s.workers[w].stage.Failing?
    ensures var job, status := s.workers[w].job, FailureStatus(s.workers[w].stage.run);
            && job in s.db.jobs
            && UpdateStatus(s.db.jobs, job, status, Started, Some(error), now)
               == (if IsStarted(s.db.jobs, job) then Ok(s.db.jobs[job := Stamp(s.db.jobs[job], status, Some(error), now)])
                   else Err(StateConflict))
            && (!IsStarted(s.db.jobs, job) ==> s.db.jobs[job].status.Completed?)
  {
    hide Shapes, Claims, Linked, Known, Awake, Documents, Pure, Artifacts;
    JobKnown(s, w);
    if IsStarted(s.db.jobs, s.workers[w].job) {
      UpdateKeepsIndex(s.db.jobs, s.workers[w].job, FailureStatus(s.workers[w].stage.run), Started, Some(error), now);
    }
  }

  /** A claim wins if and only if the row is QUEUED, and then makes the next attempt. */
  lemma ClaimMeets(s: State, job: Uuid, now: nat)
    requires Inv(s)
    ensures var r := UpdateStatus(s.db.jobs, job, Started, Queued, None, now);
            if IsQueued(s.db.jobs, job) then
              r.Ok? && job in r.value && Attempt(r.value[job].attempts, r.value[job].maxAttempts) == RunOf(s, job)
            else r == Err(StateConflict)
  {
    hide Shapes, Claims, Linked, Known, Awake, Documents, Pure, Artifacts;
    if IsQueued(s.db.jobs, job) { UpdateKeepsIndex(s.db.jobs, job, Started, Queued, None, now); }
  }

  class RabbitMQConsumer {
    const id: nat
    const system: System
    const service: ProcessingService
    const text: Failure -> string
    var inFlight: bool

    constructor (id: nat, system: System, service: ProcessingService, text: Failure -> string)
      ensures this.id == id && this.system == system && this.service == service && this.text == text && !inFlight
    {
      this.id, this.system, this.service, this.text := id, system, service, text;
      inFlight := false;
    }

    ghost predicate Wired()
    {
      service.system == system && service.Wired()
    }

    /** `_handle` returned: the worker is at rest, or an exception escapes, perhaps after the message was settled. */
    ghost predicate Returned(job: Uuid, escaped: bool)
      reads system, system.log
    {
      if escaped then system.Doing(id, job, Raised) || (system.Resting(id) && system.Excused())
      else system.Resting(id)
    }

    /** After a part of `_handle`: it is over, or goes on at this stage. */
    ghost predicate Stands(over: Option<bool>, job: Uuid, stage: Stage)
      reads system, system.log
    {
      match over
      case None => system.Doing(id, job, stage)
      case Some(escaped) => Returned(job, escaped)
    }

    ghost predicate HasStatus(job: Uuid, status: Status)
      reads system
    {
      job in system.model.db.jobs && system.model.db.jobs[job].status == status
    }

    ghost predicate HasFailed(job: Uuid, error: string)
      reads system
    {
      HasStatus(job, Status.Failed) && system.model.db.jobs[job].error == Some(error)
    }

    /** `request_stop`, called by the signal handler. */
    method RequestStop()
      requires system.Sound() && system.me == Cluster.Consumer(id)
      modifies system`model, system`trace, system`deeds, system.stop
      ensures system.model.workers == old(system.model).workers
      ensures system.Sound() && system.stop.isSet && system.Grew() && system.deeds == old(system.deeds)
    {
      hide Inv, Run, After, Faults, Deeds;
      system.stop.isSet := true;
      if id in system.model.workers {
        StopSignals(system.model, system.clock, id);
        system.Advance(Stop(id));
      }
    }

    /** Leaves a session block that wrote nothing: its commit may still raise, after the message was settled. */
    method CloseSession(session: Session, ghost job: Uuid) returns (escaped: bool)
      requires system.Sound() && system.Resting(id) && session.db == system.db && !session.dirty
      modifies system, system.db, system.store, system.queue, system.stop, system.log
      ensures system.deeds == old(system.deeds) && system.log.count == old(system.log.count) + 1
      ensures escaped == Fails(system.log.weather, old(system.log.count))
      ensures system.Sound() && system.Grew() && Returned(job, escaped)
    {
      hide Inv, Run, After, Faults, Deeds, Mine;
      system.Await();
      var outcome := session.Commit();
      escaped := !outcome.Acknowledged?;
    }

    /** `await msg.ack()`. */
    method Ack(job: Uuid, ghost stage: Stage) returns (acked: bool)
      requires system.Sound() && system.Doing(id, job, stage) && (stage.Dropping? || stage.Acking? || stage.Settling?)
      modifies system`model, system`trace, system`deeds, system.queue, system.log
      ensures acked == !Fails(system.log.weather, old(system.log.count))
      ensures system.Followed([if acked then Settle(id) else SettleRaises(id)], old(system.log.count) + 1)
      ensures acked ==> system.Resting(id) && system.queue.state == Acked(old(system.queue.state), id)
      ensures !acked ==> && system.Doing(id, job, if stage.Acking? then Failing(stage.run) else Raised)
                         && system.queue.state == old(system.queue.state)
      ensures system.Sound() && system.Grew() && system.model.db == old(system.model).db
    {
      hide Inv, Run, After, Faults, Deeds, Mine, Faulty, Effect, Acked;
      SettleEffect(system.model, system.clock, id);
      SettleRaisesMoves(system.model, system.clock, id);
      acked := system.queue.Ack(id);
      if acked {
        system.Perform(Settle(id), id, Idle);
      } else {
        system.Perform(SettleRaises(id), id, Busy(job, if stage.Acking? then Failing(stage.run) else Raised));
      }
    }

    /** `await msg.nack(requeue=True)`: the message is ready again. */
    method GiveMessageBack(job: Uuid) returns (nacked: bool)
      requires system.Sound() && system.Doing(id, job, Nacking)
      modifies system`model, system`trace, system`deeds, system.queue, system.log
      ensures nacked == !Fails(system.log.weather, old(system.log.count))
      ensures system.Followed([if nacked then Nack(id) else SettleRaises(id)], old(system.log.count) + 1)
      ensures nacked ==> system.Resting(id) && system.queue.state == Protocol.Returned(old(system.queue.state), id)
      ensures !nacked ==> system.Doing(id, job, Raised) && system.queue.state == old(system.queue.state)
      ensures system.Sound() && system.Grew()
    {
      hide Inv, Run, After, Faults, Deeds, Mine, Faulty, Effect, Protocol.Returned;
      NackEffect(system.model, system.clock, id);
      SettleRaisesMoves(system.model, system.clock, id);
      nacked := system.queue.Nack(id);
      if nacked {
        system.Perform(Nack(id), id, Idle);
      } else {
        system.Perform(SettleRaises(id), id, Busy(job, Raised));
      }
    }

    /** `await msg.ack(); return` inside a session block, for a message there is nothing to do about. */
    method Drop(session: Session, job: Uuid) returns (escaped: bool)
      requires system.Sound() && system.Doing(id, job, Dropping) && session.db == system.db && !session.dirty
      modifies system, system.db, system.store, system.queue, system.stop, system.log
      ensures var p := DropPhase(id, system.log.weather, old(system.log.count));
              system.Followed(p.steps, p.next) && p.over == Some(escaped)
      ensures system.Sound() && system.Grew() && Returned(job, escaped)
    {
      hide Inv, Run, After, Faults, Deeds, Mine, Kept, Acked, System.Sound, CallLog.Troubles, FailedCalls;
      system.Pause(id, job, Dropping);
      var acked := Ack(job, Dropping);
      if !acked { return true; }
      escaped := CloseSession(session, job);
    }

    /** The status read of the first session block: whether the row is QUEUED at that moment. */
    method ReadStatus(session: Session, job: Uuid) returns (ok: bool, queued: bool)
      requires system.Sound() && system.Doing(id, job, Received) && session.db == system.db && !session.dirty
      modifies system, system.db, system.store, system.queue, system.stop, system.log
      ensures ok == !Fails(system.log.weather, old(system.log.count))
      ensures system.Doing(id, job, if !ok then Raised else if queued then Checked else Dropping)
      ensures system.Followed([if ok then Protocol.ReadStatus(id) else SessionFails(id)], old(system.log.count) + 1)
      ensures ok ==> (queued <==> IsQueued(system.model.db.jobs, job))
      ensures system.Sound() && system.Grew()
    {
      hide Inv, Run, After, Faults, Deeds, Mine, Faulty, Effect, Kept;
      system.Pause(id, job, Received);
      ReadMoves(system.model, system.clock, id);
      SessionMoves(system.model, system.clock, id);
      var row := session.GetForProcessing(job);
      if row.Err? {
        system.Perform(SessionFails(id), id, Busy(job, Raised));
        return false, false;
      }
      queued := row.value.Some? && row.value.value.status == Queued;
      system.Perform(Protocol.ReadStatus(id), id, Busy(job, if queued then Checked else Dropping));
      ok := true;
    }

    /** The end of the session block that read QUEUED. */
    method LeaveChecked(session: Session, job: Uuid) returns (ok: bool)
      requires system.Sound() && system.Doing(id, job, Checked) && session.db == system.db && !session.dirty
      modifies system, system.db, system.store, system.queue, system.stop, system.log
      ensures ok == !Fails(system.log.weather, old(system.log.count))
      ensures system.Doing(id, job, if ok then Checked else Raised)
      ensures system.Followed(if ok then [] else [SessionFails(id)], old(system.log.count) + 1)
      ensures system.Sound() && system.Grew()
    {
      hide Inv, Run, After, Faults, Deeds, Mine, Faulty, Effect, Kept;
      system.Pause(id, job, Checked);
      SessionMoves(system.model, system.clock, id);
      var outcome := session.Commit();
      ok := outcome.Acknowledged?;
      if !ok { system.Perform(SessionFails(id), id, Busy(job, Raised)); }
    }

    /** The first session block.  `read` is the state its status read saw. */
    method Inspect(job: Uuid) returns (escaped: bool, queued: bool, ghost read: State)
      requires system.Sound() && system.Doing(id, job, Received)
      modifies system, system.db, system.store, system.queue, system.stop, system.log
      ensures var p := InspectPhase(id, system.log.weather, old(system.log.count), IsQueued(read.db.jobs, job));
              && system.Followed(p.steps, p.next) && Stands(p.over, job, Checked)
              && p.over == if queued then None else Some(escaped)
      ensures system.Sound() && system.Grew() && system.Passed(|old(system.trace)|, read)
    {
      hide Inv, Run, After, Faults, Deeds, Mine, Kept, PassedIn, System.Sound, Fails, System.Excused, HasStatus,
           CallLog.Troubles, FailedCalls, DropPhase;
      ghost var before := system.deeds;
      var session := new Session(system.db);
      var ok;
      ok, queued := ReadStatus(session, job);
      read := system.model;
      ghost var past := system.trace;
      PassedHere(system, |old(system.trace)|);
      if !ok { return true, false, read; }
      ghost var n := system.log.count;
      if !queued {
        escaped := Drop(session, job);
        ghost var d := DropPhase(id, system.log.weather, n);
        assert before + [Protocol.ReadStatus(id)] + d.steps == before + ([Protocol.ReadStatus(id)] + d.steps);
      } else {
        queued := LeaveChecked(session, job);
        escaped := !queued;
      }
      PassedStays(system.cfg, past, system.trace, |old(system.trace)|, |old(system.trace)|, read);
    }

    /** A claim whose UPDATE raised: the message goes back to the queue, unless the nack raises too. */
    method GiveBack(session: Session, job: Uuid) returns (escaped: bool)
      requires system.Sound() && system.Doing(id, job, Checked) && system.Excused()
      requires session.db == system.db && !session.dirty
      modifies system, system.db, system.store, system.queue, system.stop, system.log
      ensures var p := GiveBackPhase(id, system.log.weather, old(system.log.count));
              system.Followed(p.steps, p.next) && p.over == Some(escaped)
      ensures system.Sound() && system.Grew() && Returned(job, escaped)
    {
      hide Inv, Run, After, Faults, Deeds, Mine, Kept, Protocol.Returned, System.Sound, CallLog.Troubles, FailedCalls;
      ClaimRaised(job);
      system.Pause(id, job, Nacking);
      var nacked := GiveMessageBack(job);
      if !nacked { return true; }
      escaped := CloseSession(session, job);
    }

    /** The UPDATE of the claim raised and changed nothing. */
    method ClaimRaised(job: Uuid)
      requires system.Sound() && system.Doing(id, job, Checked) && system.Excused()
      modifies system`model, system`trace, system`deeds
      ensures system.Followed([ClaimError(id)], old(system.log.count))
      ensures system.Sound() && system.Grew() && system.Doing(id, job, Nacking)
    {
      hide Inv, Run, After, Faults, Deeds, Mine, Faulty, Effect;
      ClaimErrorMoves(system.model, system.clock, id);
      system.Perform(ClaimError(id), id, Busy(job, Nacking));
    }

    /** The second session block: the compare-and-swap to STARTED and its commit.  `met` is the state the
        compare-and-swap met.  Afterwards the worker owns the attempt that the returned row names, or `_handle` is over:
        a raising UPDATE gave the message back, a conflict dropped it, and a raising commit did neither. */
    method TakeClaim(job: Uuid) returns (escaped: bool, claim: Option<Attempt>, ghost met: State)
      requires system.Sound() && system.Doing(id, job, Checked)
      modifies system, system.db, system.store, system.queue, system.stop, system.log
      ensures var p := ClaimPhase(id, system.log.weather, old(system.log.count), IsQueued(met.db.jobs, job));
              && system.Followed(p.steps, p.next) && Stands(p.over, job, Claimed(RunOf(met, job)))
              && p.over == (if claim.Some? then None else Some(escaped))
              && (claim.Some? ==> claim.value == RunOf(met, job))
      ensures system.Sound() && system.Grew() && system.Passed(|old(system.trace)|, met)
    {
      hide Inv, Run, After, Faults, Deeds, Mine, Faulty, Effect, Kept, Schema.UpdateStatus, PassedIn, RunOf;
      system.Pause(id, job, Checked);
      met := system.model;
      ghost var past := system.trace;
      PassedHere(system, |old(system.trace)|);
      var session := new Session(system.db);
      var now := system.Now();
      escaped, claim := CompareAndSwap(session, job, now);
      PassedStays(system.cfg, past, system.trace, |old(system.trace)|, |old(system.trace)|, met);
    }

    /** The UPDATE with its three outcomes. */
    method CompareAndSwap(session: Session, job: Uuid, now: nat) returns (escaped: bool, claim: Option<Attempt>)
      requires system.Sound() && system.Doing(id, job, Checked) && now == system.clock
      requires session.db == system.db && !session.dirty
      modifies system, system.db, system.store, system.queue, system.stop, system.log, session
      ensures var met := old(system.model);
              var p := ClaimPhase(id, system.log.weather, old(system.log.count), IsQueued(met.db.jobs, job));
              && system.Followed(p.steps, p.next) && Stands(p.over, job, Claimed(RunOf(met, job)))
              && p.over == (if claim.Some? then None else Some(escaped))
              && (claim.Some? ==> claim.value == RunOf(met, job))
      ensures system.Sound() && system.Grew()
    {
      hide Inv, Run, After, Faults, Deeds, Mine, Faulty, Effect, Kept, Schema.UpdateStatus, RunOf, DropPhase,
           GiveBackPhase;
      ClaimMeets(system.model, job, now);
      var started := session.UpdateStatus(job, Started, Queued, None, now);
      if started.Ok? {
        escaped, claim := CommitClaim(session, job, started.value, now);
      } else if started.error.DatabaseError? {
        escaped := GiveBack(session, job);
        claim := None;
      } else {
        escaped := Conflict(session, job, now);
        claim := None;
      }
    }

    /** The row is not QUEUED any more. */
    method Conflict(session: Session, job: Uuid, now: nat) returns (escaped: bool)
      requires system.Sound() && system.Doing(id, job, Checked) && now == system.clock
      requires session.db == system.db && !session.dirty
      requires Schema.UpdateStatus(system.db.tables.jobs, job, Started, Queued, None, now) == Err(StateConflict)
      modifies system, system.db, system.store, system.queue, system.stop, system.log
      ensures var p := Then([Claim(id, Acknowledged)], DropPhase(id, system.log.weather, old(system.log.count)));
              system.Followed(p.steps, p.next) && p.over == Some(escaped)
      ensures system.Sound() && system.Grew() && Returned(job, escaped)
    {
      hide Inv, Run, After, Faults, Deeds, Mine, Faulty, Effect, Kept, Schema.UpdateStatus, DropPhase;
      ghost var before, n := system.deeds, system.log.count;
      ClaimEffect(system.model, now, id, Acknowledged);
      system.Perform(Claim(id, Acknowledged), id, Busy(job, Dropping));
      escaped := Drop(session, job);
      ghost var d := DropPhase(id, system.log.weather, n);
      assert before + [Claim(id, Acknowledged)] + d.steps == before + ([Claim(id, Acknowledged)] + d.steps);
    }

    method CommitClaim(session: Session, job: Uuid, started: Job, now: nat) returns (escaped: bool, claim: Option<Attempt>)
      requires system.Sound() && system.Doing(id, job, Checked) && now == system.clock
      requires session.db == system.db && session.dirty
      requires var r := Schema.UpdateStatus(system.db.tables.jobs, job, Started, Queued, None, now);
               r.Ok? && started == r.value[job] && session.staged == system.db.tables.(jobs := r.value)
      modifies system`model, system`trace, system`deeds, system.db, system.log
      ensures escaped == Fails(system.log.weather, old(system.log.count)) && (claim.Some? <==> !escaped)
      ensures system.Followed([Claim(id, CommitBy(system.log.weather, old(system.log.count)))], old(system.log.count) + 1)
      ensures escaped ==> system.Doing(id, job, Raised)
      ensures !escaped ==> && claim.value == Attempt(started.attempts, started.maxAttempts)
                           && system.Doing(id, job, Claimed(claim.value))
      ensures system.Sound() && system.Grew()
    {
      hide Inv, Run, After, Faults, Deeds, Mine, Faulty, Effect, Kept, Schema.UpdateStatus;
      var run := Attempt(started.attempts, started.maxAttempts);
      var outcome := session.Commit();
      ClaimEffect(system.model, now, id, outcome);
      escaped := !outcome.Acknowledged?;
      claim := if escaped then None else Some(run);
      system.Perform(Claim(id, outcome), id, Busy(job, if escaped then Raised else Claimed(run)));
    }

    /** The third session block and the ack inside the same `try`: the job is COMPLETED and its message acked, or one of
        the nine calls raised. */
    method TryProcess(job: Uuid, run: Attempt) returns (r: Result<(), Failure>, ghost seen: State, ghost drawn: Uuid)
      requires Wired() && system.Sound() && system.Doing(id, job, Claimed(run))
      modifies system, system.db, system.store, system.queue, system.stop, system.log
      ensures drawn == system.IdAt(old(system.log.count) + 5)
      ensures var k := TryWork(id, system.log.weather, old(system.log.count), drawn, Free(seen, job, drawn));
              && system.Followed(k.steps, k.next)
              && k.failure == if r.Ok? then None else Some(r.error)
      ensures if r.Ok? then system.Resting(id) && HasStatus(job, Completed) else system.Doing(id, job, Failing(run))
      ensures system.Sound() && system.Grew() && system.Passed(|old(system.trace)|, seen)
    {
      hide Inv, CallLog.Troubles, FailedCalls, HasStatus, Run, After, Faults, Deeds, Mine, CompletedTables, ProcessWork,
           FinishWork, Next, Free, PassedIn, System.Sound, System.IdAt;
      ghost var before, o, n := system.deeds, system.log.weather, system.log.count;
      var session := new Session(system.db);
      var processed;
      processed, seen, drawn := service.Process(session, id, job, run);
      ghost var past := system.trace;
      TryJoins(id, o, n, before, drawn, Free(seen, job, drawn));
      if processed.Err? {
        r := Err(processed.error);
      } else {
        r := Finish(session, job, run, processed.value);
      }
      PassedStays(system.cfg, past, system.trace, |old(system.trace)|, |old(system.trace)|, seen);
    }

    /** The commit of the completion, then the ack. */
    method Finish(session: Session, job: Uuid, run: Attempt, artifact: Uuid) returns (r: Result<(), Failure>)
      requires system.Sound() && session.db == system.db && session.dirty
      requires BusyAt(system.model.workers, id) && system.model.workers[id].stage.Stored?
      requires system.Doing(id, job, Stored(run, system.model.workers[id].stage.target))
      requires CompletedTables(system.db.tables, job, system.model.workers[id].stage.target, artifact, system.clock)
               == Ok(session.staged)
      modifies system, system.db, system.store, system.queue, system.stop, system.log
      ensures var k := FinishWork(id, system.log.weather, old(system.log.count), artifact);
              && system.Followed(k.steps, k.next)
              && k.failure == if r.Ok? then None else Some(r.error)
      ensures if r.Ok? then system.Resting(id) && HasStatus(job, Completed) else system.Doing(id, job, Failing(run))
      ensures system.Sound() && system.Grew()
    {
      hide Inv, Run, After, Faults, Deeds, Mine, Faulty, Effect, CompletedTables, System.Sound, CallLog.Troubles,
           FailedCalls, Acked;
      var committed := CommitCompletion(session, job, run, artifact);
      if !committed { return Err(CommitFailure); }
      system.Pause(id, job, Acking(run));
      var acked := Ack(job, Acking(run));
      r := if acked then Ok(()) else Err(AckFailure);
    }

    /** The end of the third session block. */
    method CommitCompletion(session: Session, job: Uuid, ghost run: Attempt, artifact: Uuid) returns (committed: bool)
      requires system.Sound() && session.db == system.db && session.dirty
      requires BusyAt(system.model.workers, id) && system.model.workers[id].stage.Stored?
      requires system.Doing(id, job, Stored(run, system.model.workers[id].stage.target))
      requires CompletedTables(system.db.tables, job, system.model.workers[id].stage.target, artifact, system.clock)
               == Ok(session.staged)
      modifies system`model, system`trace, system`deeds, system.db, system.log
      ensures committed == !Fails(system.log.weather, old(system.log.count))
      ensures system.Followed([Complete(id, artifact, CommitBy(system.log.weather, old(system.log.count)))], old(system.log.count) + 1)
      ensures if committed then system.Doing(id, job, Acking(run)) && HasStatus(job, Completed)
              else system.Doing(id, job, Failing(run))
      ensures system.Sound() && system.Grew()
    {
      hide Inv, Run, After, Faults, Deeds, Mine, Faulty, Effect, CompletedTables;
      var outcome := session.Commit();
      CompleteEffect(system.model, system.clock, id, artifact, outcome);
      committed := outcome.Acknowledged?;
      if committed {
        CompletedIs(system.db.tables, system.model.db, job, system.model.workers[id].stage.target, artifact, system.clock);
        system.Perform(Complete(id, artifact, outcome), id, Busy(job, Acking(run)));
      } else {
        system.Perform(Complete(id, artifact, outcome), id, Busy(job, Failing(run)));
      }
    }

    /** The compare-and-swap away from STARTED: back to QUEUED while attempts are left, else to FAILED, with the text of
        the exception.  A row that is no longer STARTED is COMPLETED and left alone.  `met` is the state the
        compare-and-swap met. */
    method RecordFailure(job: Uuid, run: Attempt, error: string) returns (verdict: Verdict, ghost met: State)
      requires system.Sound() && system.Doing(id, job, Failing(run))
      modifies system, system.db, system.store, system.queue, system.stop, system.log
      ensures var k := RecordPhase(id, system.log.weather, old(system.log.count), error, IsStarted(met.db.jobs, job));
              system.Followed(k.steps, k.next) && k.verdict == verdict
      ensures FailureRecorded(verdict, job, run, error)
      ensures system.Sound() && system.Grew() && system.Passed(|old(system.trace)|, met)
    {
      hide Inv, Run, After, Faults, Deeds, Mine, Faulty, Effect, Kept, Schema.UpdateStatus, PassedIn;
      system.Pause(id, job, Failing(run));
      met := system.model;
      ghost var past := system.trace;
      PassedHere(system, |old(system.trace)|);
      var session := new Session(system.db);
      var now := system.Now();
      verdict := SwapAway(session, job, run, error, now);
      PassedStays(system.cfg, past, system.trace, |old(system.trace)|, |old(system.trace)|, met);
    }

    /** Where the failure update leaves the worker and the row. */
    ghost predicate FailureRecorded(verdict: Verdict, job: Uuid, run: Attempt, error: string)
      reads system
    {
      match verdict
      case Escapes => system.Doing(id, job, Raised)
      case Conflicts => system.Doing(id, job, Settling(false)) && HasStatus(job, Completed)
      case Recorded =>
        && HasStatus(job, if run.number < run.limit then Queued else Failed)
        && system.model.db.jobs[job].error == Some(error)
        && system.Doing(id, job, if run.number < run.limit then Requeued else Settling(false))
    }

    method SwapAway(session: Session, job: Uuid, run: Attempt, error: string, now: nat) returns (verdict: Verdict)
      requires system.Sound() && system.Doing(id, job, Failing(run)) && now == system.clock
      requires session.db == system.db && !session.dirty
      modifies system`model, system`trace, system`deeds, system.db, system.log, session
      ensures var k := RecordPhase(id, system.log.weather, old(system.log.count), error, IsStarted(old(system.model).db.jobs, job));
              system.Followed(k.steps, k.next) && k.verdict == verdict
      ensures FailureRecorded(verdict, job, run, error)
      ensures system.Sound() && system.Grew()
    {
      hide Inv, Run, After, Faults, Deeds, Mine, Faulty, Effect, Kept, Schema.UpdateStatus;
      var status := if run.number < run.limit then Queued else Failed;
      FailureMeets(system.model, id, error, now);
      var updated := session.UpdateStatus(job, status, Started, Some(error), now);
      if updated.Ok? {
        verdict := CommitFailed(session, job, run, status, error, now);
      } else if updated.error.StateConflict? {
        ResolveEffect(system.model, now, id, error, Acknowledged);
        system.Perform(Resolve(id, error, Acknowledged), id, Busy(job, Settling(false)));
        verdict := Conflicts;
      } else {
        ResolveEffect(system.model, now, id, error, Unacknowledged(false));
        system.Perform(Resolve(id, error, Unacknowledged(false)), id, Busy(job, Raised));
        verdict := Escapes;
      }
    }

    method CommitFailed(session: Session, job: Uuid, run: Attempt, status: Status, error: string, now: nat)
      returns (verdict: Verdict)
      requires system.Sound() && system.Doing(id, job, Failing(run)) && now == system.clock
      requires status == FailureStatus(run) && session.db == system.db && session.dirty
      requires IsStarted(system.db.tables.jobs, job)
      requires Schema.UpdateStatus(system.db.tables.jobs, job, status, Started, Some(error), now)
               == Ok(system.db.tables.jobs[job := Stamp(system.db.tables.jobs[job], status, Some(error), now)])
      requires session.staged
               == system.db.tables.(jobs := system.db.tables.jobs[job := Stamp(system.db.tables.jobs[job], status, Some(error), now)])
      modifies system`model, system`trace, system`deeds, system.db, system.log
      ensures verdict == if Fails(system.log.weather, old(system.log.count)) then Escapes else Recorded
      ensures system.Followed([Resolve(id, error, CommitBy(system.log.weather, old(system.log.count)))], old(system.log.count) + 1)
      ensures FailureRecorded(verdict, job, run, error)
      ensures system.Sound() && system.Grew()
    {
      hide Inv, Run, After, Faults, Deeds, Mine, Faulty, Effect, Schema.UpdateStatus;
      var outcome := session.Commit();
      ResolveEffect(system.model, now, id, error, outcome);
      verdict := if outcome.Acknowledged? then Recorded else Escapes;
      system.Perform(Resolve(id, error, outcome), id,
                     Busy(job, if verdict.Escapes? then Raised else if status.Queued? then Requeued else Settling(false)));
    }

    /** `_handle_failure`; a QueueException from the re-enqueue is swallowed, anything else escapes.  A job with attempts
        left is in the queue again unless a call raised; without attempts left it is FAILED with the text of the
        exception, or COMPLETED. */
    method HandleFailure(job: Uuid, run: Attempt, error: string) returns (escaped: bool, ghost sent: bool, ghost met: State)
      requires system.Sound() && system.Doing(id, job, Failing(run))
      modifies system, system.db, system.store, system.queue, system.stop, system.log
      ensures var p := FailurePhase(id, system.log.weather, old(system.log.count), run, error, IsStarted(met.db.jobs, job));
              && system.Followed(p.steps, p.next) && p.over == (if escaped then Some(true) else None)
      ensures system.Doing(id, job, if escaped then Raised else Settling(sent))
      ensures sent && !escaped ==> job in system.queue.state.ready
      ensures !escaped && run.number >= run.limit ==> HasFailed(job, error) || HasStatus(job, Completed)
      ensures system.Sound() && system.Grew() && system.Passed(|old(system.trace)|, met)
    {
      hide Inv, Run, After, Faults, Deeds, Mine, Faulty, Effect, Kept, PassedIn, System.Sound, CallLog.Troubles,
           FailedCalls, RecordPhase;
      ghost var before := system.deeds;
      var verdict;
      sent := false;
      verdict, met := RecordFailure(job, run, error);
      ghost var past := system.trace;
      escaped := verdict.Escapes?;
      if verdict.Recorded? && run.number < run.limit {
        ghost var middle := system.deeds;
        var send := Republish(job);
        escaped, sent := send.Broken?, send.Sent? || send.published;
        ghost var k := RecordPhase(id, system.log.weather, old(system.log.count), error, IsStarted(met.db.jobs, job));
        assert before + k.steps + [Reenqueue(id, send)] == before + (k.steps + [Reenqueue(id, send)]);
      }
      PassedStays(system.cfg, past, system.trace, |old(system.trace)|, |old(system.trace)|, met);
    }

    /** The re-enqueue. */
    method Republish(job: Uuid) returns (send: Send)
      requires system.Sound() && system.Doing(id, job, Requeued)
      modifies system, system.db, system.store, system.queue, system.stop, system.log
      ensures send == SendBy(system.log.weather, old(system.log.count))
      ensures system.Doing(id, job, Settlement(send)) && system.Followed([Reenqueue(id, send)], old(system.log.count) + 1)
      ensures send.Sent? || send.published ==> job in system.queue.state.ready
      ensures system.Sound() && system.Grew()
    {
      hide Inv, Run, After, Faults, Deeds, Mine, Faulty, Effect, Kept;
      system.Pause(id, job, Requeued);
      send := system.queue.Enqueue(job);
      ReenqueueEffect(system.model, system.clock, id, send);
      system.Perform(Reenqueue(id, send), id, Busy(job, Settlement(send)));
    }

    /** The `except` branch: the failure is handled, then the message is acked, unless an exception escapes. */
    method FailAndAck(job: Uuid, run: Attempt, error: string) returns (escaped: bool, ghost met: State)
      requires system.Sound() && system.Doing(id, job, Failing(run))
      modifies system, system.db, system.store, system.queue, system.stop, system.log
      ensures var p := ExceptPhase(id, system.log.weather, old(system.log.count), run, error, IsStarted(met.db.jobs, job));
              system.Followed(p.steps, p.next) && p.over == Some(escaped)
      ensures !escaped && run.number >= run.limit ==> HasFailed(job, error) || HasStatus(job, Completed)
      ensures system.Sound() && system.Grew() && Returned(job, escaped) && system.Passed(|old(system.trace)|, met)
    {
      hide Inv, Run, After, Faults, Deeds, Mine, Kept, Acked, FailurePhase, PassedIn, System.Sound, CallLog.Troubles,
           FailedCalls;
      ghost var before, n, sent := system.deeds, system.log.count, false;
      escaped, sent, met := HandleFailure(job, run, error);
      if escaped { return; }
      ghost var past := system.trace;
      system.Pause(id, job, Settling(sent));
      var acked := Ack(job, Settling(sent));
      escaped := !acked;
      ghost var f := FailurePhase(id, system.log.weather, n, run, error, IsStarted(met.db.jobs, job));
      ghost var last := if acked then Settle(id) else SettleRaises(id);
      assert before + f.steps + [last] == before + (f.steps + [last]);
      PassedStays(system.cfg, past, system.trace, |old(system.trace)|, |old(system.trace)|, met);
    }

    /** The `try` and its `except`: what is recorded of a failure is the text of the exception that the `try` raised. */
    method Execute(job: Uuid, run: Attempt, ghost answers: Answers)
      returns (escaped: bool, ghost complete: State, ghost drawn: Uuid, ghost record: State)
      requires Wired() && system.Sound() && system.Doing(id, job, Claimed(run)) && answers.run == run
      modifies system, system.db, system.store, system.queue, system.stop, system.log
      ensures drawn == system.IdAt(old(system.log.count) + 5)
      ensures system.Passed(|old(system.trace)|, complete) && system.Passed(|old(system.trace)|, record)
      ensures var a := answers.(artifact := drawn, free := Free(complete, job, drawn),
                                     started := IsStarted(record.db.jobs, job));
              var p := ExecutePhase(id, system.log.weather, old(system.log.count), a, text);
              && system.Followed(p.steps, p.next) && p.over == Some(escaped)
              && (TryWork(id, system.log.weather, old(system.log.count), drawn, a.free).failure.None? ==>
                    HasStatus(job, Completed))
      ensures system.Sound() && system.Grew() && Returned(job, escaped)
    {
      hide Inv, Run, After, Faults, Deeds, Mine, Faulty, Effect, TryWork, ExceptPhase, Free, PassedIn, System.Sound,
           CallLog.Troubles, FailedCalls, System.IdAt;
      ghost var before, n := system.deeds, system.log.count;
      var processed;
      processed, complete, drawn := TryProcess(job, run);
      ghost var past, start := system.trace, |system.trace|;
      if processed.Ok? {
        record := system.model;
        PassedHere(system, |old(system.trace)|);
        escaped := false;
      } else {
        ghost var m := system.log.count;
        escaped, record := FailAndAck(job, run, text(processed.error));
        PassedStays(system.cfg, past, system.trace, |old(system.trace)|, |old(system.trace)|, complete);
        PassedStays(system.cfg, system.trace, system.trace, start, |old(system.trace)|, record);
        ghost var k := TryWork(id, system.log.weather, n, drawn, Free(complete, job, drawn));
        ghost var e := ExceptPhase(id, system.log.weather, m, run, text(processed.error), IsStarted(record.db.jobs, job));
        assert before + k.steps + e.steps == before + (k.steps + e.steps);
      }
    }

    /** `_handle`, from the parsed job id on, does what HandlePhase says for the answers it got; when that ends well the
        job is COMPLETED. */
    method Handle(job: Uuid) returns (escaped: bool, ghost seen: Seen)
      requires Wired() && system.Sound() && system.Doing(id, job, Received)
      modifies system, system.db, system.store, system.queue, system.stop, system.log
      ensures seen.drawn == system.IdAt(old(system.log.count) + 9)
      ensures var p := HandlePhase(id, system.log.weather, old(system.log.count), AnswersOf(seen, job), text);
              system.Followed(p.steps, p.next) && p.over == Some(escaped)
      ensures Succeeds(id, system.log.weather, old(system.log.count), AnswersOf(seen, job)) ==>
                HasStatus(job, Completed)
      ensures SawOnTheWay(system.trace, |old(system.trace)|, seen)
      ensures system.Sound() && system.Grew() && Returned(job, escaped)
    {
      hide Inv, Run, After, Faults, Deeds, Mine, Faulty, Effect, InspectPhase, AttemptPhase, AttemptSucceeds, Free,
           RunOf, PassedIn, System.Sound, RabbitMQConsumer.Returned, HasStatus, CallLog.Troubles, FailedCalls,
           System.IdAt;
      ghost var before, n, start := system.deeds, system.log.count, |system.trace|;
      var queued;
      ghost var read;
      escaped, queued, read := Inspect(job);
      if !queued {
        ghost var s := system.model;
        PassedHere(system, start);
        return escaped, Seen(read, s, s, system.IdAt(n + 9), s);
      }
      ghost var past, mid := system.trace, |system.trace|;
      BlocksMake(id, system.log.weather, n, IsQueued(read.db.jobs, job));
      escaped, seen := AttemptJob(job, read);
      PassedStays(system.cfg, past, system.trace, start, start, read);
      PassedStays(system.cfg, system.trace, system.trace, mid, start, seen.claim);
      PassedStays(system.cfg, system.trace, system.trace, mid, start, seen.complete);
      PassedStays(system.cfg, system.trace, system.trace, mid, start, seen.record);
      ghost var i := InspectPhase(id, system.log.weather, n, IsQueued(read.db.jobs, job));
      ghost var p := AttemptPhase(id, system.log.weather, i.next, AnswersOf(seen, job), text);
      assert before + i.steps + p.steps == before + (i.steps + p.steps);
    }

    /** The run passed, after the mark, every state that `_handle` saw. */
    ghost predicate SawOnTheWay(trace: seq<Event>, from: nat, seen: Seen)
    {
      && PassedIn(system.cfg, trace, from, seen.read) && PassedIn(system.cfg, trace, from, seen.claim)
      && PassedIn(system.cfg, trace, from, seen.complete) && PassedIn(system.cfg, trace, from, seen.record)
    }

    lemma SawStays(before: seq<Event>, after: seq<Event>, late: nat, early: nat, seen: Seen)
      requires SawOnTheWay(before, late, seen) && before <= after && early <= late
      ensures SawOnTheWay(after, early, seen)
    {
      hide PassedIn;
      PassedStays(system.cfg, before, after, late, early, seen.read);
      PassedStays(system.cfg, before, after, late, early, seen.claim);
      PassedStays(system.cfg, before, after, late, early, seen.complete);
      PassedStays(system.cfg, before, after, late, early, seen.record);
    }

    /** The second session block and what follows a won claim. */
    method AttemptJob(job: Uuid, ghost read: State) returns (escaped: bool, ghost seen: Seen)
      requires Wired() && system.Sound() && system.Doing(id, job, Checked)
      modifies system, system.db, system.store, system.queue, system.stop, system.log
      ensures seen.drawn == system.IdAt(old(system.log.count) + 7)
      ensures var p := AttemptPhase(id, system.log.weather, old(system.log.count), AnswersOf(seen, job), text);
              system.Followed(p.steps, p.next) && p.over == Some(escaped)
      ensures AttemptSucceeds(id, system.log.weather, old(system.log.count), AnswersOf(seen, job)) ==>
                HasStatus(job, Completed)
      ensures seen.read == read && system.Passed(|old(system.trace)|, seen.claim)
      ensures system.Passed(|old(system.trace)|, seen.complete) && system.Passed(|old(system.trace)|, seen.record)
      ensures system.Sound() && system.Grew() && Returned(job, escaped)
    {
      hide Inv, Run, After, Faults, Deeds, Mine, Faulty, Effect, ClaimPhase, ExecutePhase, Free, RunOf, PassedIn,
           TryWork, System.Sound, RabbitMQConsumer.Returned, HasStatus, CallLog.Troubles, FailedCalls, System.IdAt;
      ghost var before, n, start := system.deeds, system.log.count, |system.trace|;
      var claim;
      ghost var met, complete, drawn, record;
      escaped, claim, met := TakeClaim(job);
      if claim.None? {
        ghost var s := system.model;
        PassedHere(system, start);
        return escaped, Seen(read, met, s, system.IdAt(n + 7), s);
      }
      ghost var past, mid := system.trace, |system.trace|;
      ghost var a := AnswersOf(Seen(read, met, met, 0, met), job);
      BlocksMake(id, system.log.weather, n, a.claim);
      escaped, complete, drawn, record := Execute(job, claim.value, a);
      seen := Seen(read, met, complete, drawn, record);
      PassedStays(system.cfg, past, system.trace, start, start, met);
      PassedStays(system.cfg, system.trace, system.trace, mid, start, complete);
      PassedStays(system.cfg, system.trace, system.trace, mid, start, record);
      ghost var p := ClaimPhase(id, system.log.weather, n, a.claim);
      ghost var e := ExecutePhase(id, system.log.weather, p.next, AnswersOf(seen, job), text);
      assert AnswersOf(seen, job) == a.(artifact := drawn, free := Free(complete, job, drawn),
                                     started := IsStarted(record.db.jobs, job));
      assert before + p.steps + e.steps == before + (p.steps + e.steps);
    }

    /** The stop event is read before the message is handled: a stopping consumer leaves the loop, its channel closes
        and the message is ready again. */
    method Accept(job: Uuid) returns (accepted: bool)
      requires system.Sound() && system.Doing(id, job, Delivered)
      modifies system, system.db, system.store, system.queue, system.stop, system.log
      ensures old(system.stop.isSet) ==> !accepted
      ensures accepted ==> system.Doing(id, job, Received)
      ensures !accepted ==> id !in system.model.workers && id !in system.queue.state.unacked && system.stop.isSet
      ensures system.Sound() && system.Grew() && system.Followed([Begin(id)], old(system.log.count))
    {
      hide Inv, Run, After, Faults, Deeds, Faulty, Effect, Kept, Protocol.Returned;
      system.Pause(id, job, Delivered);
      accepted := !system.stop.isSet;
      if accepted {
        BeginMoves(system.model, system.clock, id);
        system.Perform(Begin(id), id, Busy(job, Received));
      } else {
        LeaveEffect(system.model, system.clock, id);
        system.queue.Close(id);
        system.Record(Begin(id));
        Permanence.LinkedOf(system.model);
      }
    }

    /** An exception left `_handle`: the consumer ends and its connection closes. */
    method Leave(job: Uuid)
      requires system.Sound() && Returned(job, true)
      modifies system, system.db, system.store, system.queue, system.stop, system.log
      ensures id !in system.model.workers && id !in system.queue.state.unacked
      ensures system.Followed([if old(system.model.workers)[id].Busy? then Exit(id) else Die(id)], old(system.log.count))
      ensures system.Sound() && system.Grew()
    {
      hide Inv, Run, After, Faults, Deeds, Faulty, Effect, Kept, Protocol.Returned;
      LeaveEffect(system.model, system.clock, id);
      system.queue.Close(id);
      system.Record(if system.model.workers[id].Busy? then Exit(id) else Die(id));
      Permanence.LinkedOf(system.model);
    }

    /** One turn: nothing, or a message taken and given back because of the stop event, or taken and handled. */
    ghost function RoundPhase(n: nat, round: Round): (p: Phase)
    {
      match round
      case Quiet(_) => Phase([], n, None)
      case GivenBack(_, job) => Phase([Deliver(id, job), Begin(id)], n, Some(false))
      case Handled(_, job, seen) =>
        var p := HandlePhase(id, system.log.weather, n, AnswersOf(seen.(drawn := system.IdAt(n + 9)), job), text);
        Phase([Deliver(id, job), Begin(id)] + p.steps, p.next, if p.over == Some(false) then None else Some(true))
    }

    /** The loop, until a turn ends it. */
    ghost function LoopPhase(n: nat, rounds: seq<Round>): (p: Phase)
    {
      if rounds == [] then Phase([], n, None)
      else
        var p := LoopPhase(n, rounds[..|rounds| - 1]);
        if p.over.Some? then p else Then(p.steps, RoundPhase(p.next, rounds[|rounds| - 1]))
    }

    /** The run passed the states of the turn, and a message was taken if there was one. */
    ghost predicate Witnessed(trace: seq<Event>, from: nat, round: Round)
    {
      && PassedIn(system.cfg, trace, from, round.look)
      && match round
         case Quiet(look) => look.broker.ready == multiset{}
         case GivenBack(look, job) => job in look.broker.ready
         case Handled(look, job, seen) => job in look.broker.ready && SawOnTheWay(trace, from, seen)
    }

    lemma StaysWitnessed(before: seq<Event>, after: seq<Event>, late: nat, early: nat, round: Round)
      requires Witnessed(before, late, round) && before <= after && early <= late
      ensures Witnessed(after, early, round)
    {
      hide PassedIn, SawOnTheWay;
      PassedStays(system.cfg, before, after, late, early, round.look);
      if round.Handled? { SawStays(before, after, late, early, round.seen); }
    }

    /** The code did what `p` says; after an exception the worker left. */
    ghost predicate Ended(before: seq<Step>, p: Phase, running: bool, escaped: bool)
      reads system, system.log
    {
      && p.over == (if running then None else Some(escaped)) && system.log.count == p.next
      && if escaped then system.deeds == before + p.steps + [Exit(id)] || system.deeds == before + p.steps + [Die(id)]
         else system.deeds == before + p.steps
    }

    /** The worker rests, or has left and holds no message. */
    ghost predicate Settled(running: bool)
      reads system, system.queue
    {
      if running then system.Resting(id) else id !in system.model.workers && id !in system.queue.state.unacked
    }

    /** One turn of the loop: the consumer waits for a message, and if there is one it is delivered and dealt with. */
    method Turn() returns (running: bool, escaped: bool, ghost round: Round)
      requires Wired() && system.Sound() && system.Resting(id) && !inFlight
      modifies this`inFlight, system, system.db, system.store, system.queue, system.stop, system.log
      ensures Witnessed(system.trace, |old(system.trace)|, round)
      ensures Ended(old(system.deeds), RoundPhase(old(system.log.count), round), running, escaped)
      ensures Settled(running) && (running ==> !escaped) && (!running && !escaped ==> system.stop.isSet)
      ensures Deliveries(system.deeds) == Deliveries(old(system.deeds)) + if round.Quiet? then 0 else 1
      ensures system.Sound() && system.Grew() && inFlight == escaped
    {
      hide Inv, Run, After, Faults, Deeds, Mine, PassedIn, Deliveries, SawOnTheWay, HandlePhase, System.Sound,
           System.IdAt;
      system.WaitForMessage(id);
      ghost var look := system.model;
      SoundInv(system);
      ghost var past := system.trace;
      PassedHere(system, |old(system.trace)|);
      running, escaped, round := true, false, Quiet(look);
      if system.queue.state.ready != multiset{} {
        var job :| job in system.queue.state.ready;
        running, escaped, round := TakeAndDeal(job, look);
        if round.Handled? { SawStays(system.trace, system.trace, |past|, |old(system.trace)|, round.seen); }
      }
      assert system.deeds + [] == system.deeds;
      PassedStays(system.cfg, past, system.trace, |old(system.trace)|, |old(system.trace)|, look);
    }

    /** A ready message is delivered; then the stop event decides. */
    method TakeAndDeal(job: Uuid, ghost look: State) returns (running: bool, escaped: bool, ghost round: Round)
      requires Wired() && system.Sound() && system.Resting(id) && !inFlight && job in system.queue.state.ready
      modifies this`inFlight, system, system.db, system.store, system.queue, system.stop, system.log
      ensures !round.Quiet? && round.look == look && round.job == job
      ensures round.Handled? ==> SawOnTheWay(system.trace, |old(system.trace)|, round.seen)
      ensures Ended(old(system.deeds), RoundPhase(old(system.log.count), round), running, escaped)
      ensures Settled(running) && (running ==> !escaped) && (!running && !escaped ==> system.stop.isSet)
      ensures Deliveries(system.deeds) == Deliveries(old(system.deeds)) + 1
      ensures system.Sound() && system.Grew() && inFlight == escaped
    {
      hide Inv, Run, After, Faults, Deeds, Mine, Faulty, Effect, PassedIn, Deliveries, HandlePhase, SawOnTheWay,
           System.Sound, CallLog.Troubles, FailedCalls, System.IdAt;
      ghost var before, n, start := system.deeds, system.log.count, |system.trace|;
      var accepted := TakeAndAccept(job);
      ghost var taken := [Deliver(id, job), Begin(id)];
      ghost var mid := |system.trace|;
      if accepted {
        ghost var seen;
        running, escaped, seen := Work(job);
        SawStays(system.trace, system.trace, mid, start, seen);
        round := Handled(look, job, seen);
        assert seen.(drawn := system.IdAt(n + 9)) == seen;
        ghost var p := HandlePhase(id, system.log.weather, n, AnswersOf(seen, job), text);
        assert before + taken + p.steps == before + (taken + p.steps);
      } else {
        running, escaped, round := false, false, GivenBack(look, job);
      }
      TakesOne(before, n, round, system.deeds, escaped);
    }

    method TakeAndAccept(job: Uuid) returns (accepted: bool)
      requires system.Sound() && system.Resting(id) && job in system.queue.state.ready
      modifies system, system.db, system.store, system.queue, system.stop, system.log
      ensures system.Followed([Deliver(id, job), Begin(id)], old(system.log.count))
      ensures if accepted then system.Doing(id, job, Received) else Settled(false) && system.stop.isSet
      ensures system.Sound() && system.Grew()
    {
      hide Inv, Run, After, Faults, Deeds, System.Sound, CallLog.Troubles, FailedCalls;
      ghost var before := system.deeds;
      Take(job);
      accepted := Accept(job);
      assert system.deeds == before + [Deliver(id, job), Begin(id)];
    }

    /** The message is the only one a turn takes. */
    lemma TakesOne(before: seq<Step>, n: nat, round: Round, after: seq<Step>, escaped: bool)
      requires !round.Quiet?
      requires var steps := RoundPhase(n, round).steps;
               if escaped then after == before + steps + [Exit(id)] || after == before + steps + [Die(id)]
               else after == before + steps
      ensures Deliveries(after) == Deliveries(before) + 1
    {
      hide HandlePhase, Deliveries;
      var taken, rest := [Deliver(id, round.job), Begin(id)], [];
      if round.Handled? {
        var a := AnswersOf(round.seen.(drawn := system.IdAt(n + 9)), round.job);
        rest := HandlePhase(id, system.log.weather, n, a, text).steps;
        HandleTakesNone(id, system.log.weather, n, a, text);
      }
      assert RoundPhase(n, round).steps == taken + rest;
      TakenOnce(before, round.job, rest);
      if escaped { LeavingTakesNone(before + (taken + rest), after); }
    }

    lemma TakenOnce(before: seq<Step>, job: Uuid, steps: seq<Step>)
      requires NoDelivery(steps)
      ensures Deliveries(before + ([Deliver(id, job), Begin(id)] + steps)) == Deliveries(before) + 1
    {
      hide NoDelivery;
      var taken := [Deliver(id, job), Begin(id)];
      DeliveriesAdd(before, taken + steps);
      DeliveriesAdd(taken, steps);
      DeliveriesAdd([Deliver(id, job)], [Begin(id)]);
      NoDeliveries(steps);
      assert taken == [Deliver(id, job)] + [Begin(id)];
      assert Deliveries([Deliver(id, job)]) == 1 && Deliveries([Begin(id)]) == 0;
    }

    lemma LeavingTakesNone(before: seq<Step>, after: seq<Step>)
      requires after == before + [Exit(id)] || after == before + [Die(id)]
      ensures Deliveries(after) == Deliveries(before)
    {
      DeliveriesAdd(before, after[|before|..]);
      assert Deliveries([Exit(id)]) == 0 && Deliveries([Die(id)]) == 0;
      assert after == before + after[|before|..];
    }

    /** The broker delivers one of the ready messages. */
    method Take(job: Uuid)
      requires system.Sound() && system.Resting(id) && job in system.queue.state.ready
      modifies system`model, system`trace, system`deeds, system.queue
      ensures system.Followed([Deliver(id, job)], old(system.log.count))
      ensures system.Sound() && system.Grew() && system.Doing(id, job, Delivered)
    {
      hide Inv, Run, After, Faults, Deeds, Mine, Faulty, Effect;
      Permanence.LinkedOf(system.model);
      DeliverEffect(system.model, system.clock, id, job);
      system.queue.Deliver(id, job);
      system.Perform(Deliver(id, job), id, Busy(job, Delivered));
    }

    /** The body of the loop; `_in_flight` stays set when an exception leaves it. */
    method Work(job: Uuid) returns (running: bool, escaped: bool, ghost seen: Seen)
      requires Wired() && system.Sound() && system.Doing(id, job, Received)
      modifies this`inFlight, system, system.db, system.store, system.queue, system.stop, system.log
      ensures seen.drawn == system.IdAt(old(system.log.count) + 9)
      ensures if running then system.Resting(id)
              else id !in system.model.workers && id !in system.queue.state.unacked
      ensures var p := HandlePhase(id, system.log.weather, old(system.log.count), AnswersOf(seen, job), text);
              && p.over == Some(escaped) && system.log.count == p.next
              && if running then system.deeds == old(system.deeds) + p.steps
                 else system.deeds == old(system.deeds) + p.steps + [Exit(id)]
                      || system.deeds == old(system.deeds) + p.steps + [Die(id)]
      ensures system.Sound() && system.Grew() && inFlight == escaped == !running
              && SawOnTheWay(system.trace, |old(system.trace)|, seen)
    {
      hide Inv, Run, After, Faults, Deeds, Mine, HandlePhase, PassedIn, System.Sound, CallLog.Troubles, FailedCalls,
           System.IdAt, Succeeds;
      ghost var start := |system.trace|;
      inFlight := true;
      escaped, seen := Handle(job);
      running := !escaped;
      if escaped {
        ghost var past := system.trace;
        Leave(job);
        SawStays(past, system.trace, start, start, seen);
        return;
      }
      inFlight := false;
    }

    /** `start`, observed for a number of turns: it does what LoopPhase says for the turns it had.  Afterwards the worker
        rests with nothing in flight, or has left and holds no message, because it was told to stop or because an
        exception left `_handle`; it took one message in each turn that saw one. */
    method Start(turns: nat) returns (running: bool, escaped: bool, ghost rounds: seq<Round>)
      requires Wired() && system.Sound() && system.me == Cluster.Consumer(id) && id !in system.model.workers && !inFlight
      modifies this`inFlight, system, system.db, system.store, system.queue, system.stop, system.log
      ensures |rounds| <= turns && (running ==> |rounds| == turns)
      ensures forall i :: 0 <= i < |rounds| ==> Witnessed(system.trace, |old(system.trace)|, rounds[i])
      ensures Ended(old(system.deeds) + [Protocol.Start(id)], LoopPhase(old(system.log.count), rounds), running, escaped)
      ensures Settled(running) && (running ==> !escaped) && (!running && !escaped ==> system.stop.isSet)
      ensures Deliveries(system.deeds) == Deliveries(old(system.deeds)) + Taken(rounds)
      ensures system.Sound() && system.Grew() && inFlight == escaped
    {
      hide Inv, Run, After, Faults, Deeds, Mine, Deliveries, PassedIn, RoundPhase, Witnessed, System.Sound,
           CallLog.Troubles, FailedCalls, System.IdAt;
      ghost var before, n := system.deeds + [Protocol.Start(id)], system.log.count;
      system.Join(id);
      StartTakesNone(old(system.deeds), system.deeds);
      running, escaped, rounds := true, false, [];
      assert system.deeds == before + LoopPhase(n, []).steps;
      for k := 0 to turns
        invariant |rounds| <= k && (running ==> |rounds| == k)
        invariant forall i :: 0 <= i < |rounds| ==> Witnessed(system.trace, |old(system.trace)|, rounds[i])
        invariant Ended(before, LoopPhase(n, rounds), running, escaped)
        invariant Settled(running) && (running ==> !escaped) && (!running && !escaped ==> system.stop.isSet)
        invariant Deliveries(system.deeds) == Deliveries(old(system.deeds)) + Taken(rounds)
        invariant system.Sound() && system.Grew() && inFlight == escaped
      {
        if running {
          ghost var past, mid, had := system.trace, system.deeds, rounds;
          ghost var p := LoopPhase(n, had);
          ghost var round;
          running, escaped, round := Turn();
          rounds := had + [round];
          assert rounds[..|rounds| - 1] == had && rounds[|rounds| - 1] == round;
          assert before + p.steps + RoundPhase(p.next, round).steps == before + (p.steps + RoundPhase(p.next, round).steps);
          StaysWitnessed(system.trace, system.trace, |past|, |old(system.trace)|, round);
          forall i | 0 <= i < |had| ensures Witnessed(system.trace, |old(system.trace)|, had[i]) {
            StaysWitnessed(past, system.trace, |old(system.trace)|, |old(system.trace)|, had[i]);
          }
        }
      }
    }

    lemma StartTakesNone(before: seq<Step>, after: seq<Step>)
      requires after == before + [Protocol.Start(id)]
      ensures Deliveries(after) == Deliveries(before)
    {
      DeliveriesAdd(before, [Protocol.Start(id)]);
      assert Deliveries([Protocol.Start(id)]) == 0;
    }
  }
}
