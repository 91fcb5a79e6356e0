/** What the code does, as a function of the answers it gets: which of its calls raise, and what the rows look like when it
    reads or writes them.  Calls are numbered in the order they are made. */
module Scripts {
  import opened Wrappers
  import opened Keys
  import opened Protocol

  /** How one call to a service goes.  A call that raises may have been done all the same, and may raise the service's
      own exception or another one; a misleading one answers wrongly where the client lets it. */
  datatype Weather = Clear | Raises(done: bool, translated: bool) | Misleads

  /** Fixed before the code runs. */
  type Outlook = nat -> Weather

  predicate Fails(o: Outlook, n: nat) { o(n).Raises? }

  /** No call from number `n` on to number `m` raises. */
  ghost predicate Smooth(o: Outlook, n: nat, m: nat)
  {
    forall i :: n <= i < m ==> !Fails(o, i)
  }

  /** What a commit tells its caller, and what it did. */
  function CommitBy(o: Outlook, n: nat): (commit: Commit)
  {
    if o(n).Raises? then Unacknowledged(o(n).done) else Acknowledged
  }

  function SendBy(o: Outlook, n: nat): (send: Send)
  {
    match o(n)
    case Raises(done, translated) => if translated then Refused(done) else Broken(done)
    case _ => Sent
  }

  /** The exceptions that leave `process` or the ack after it. */
  datatype Failure = DatabaseFailure | StorageFailure | ParserFailure | CommitFailure | AckFailure

  /** A part of `_handle`: the steps it takes, the number of the next call, and whether `_handle` is over, with or without
      an exception. */
  datatype Phase = Phase(steps: seq<Step>, next: nat, over: Option<bool>)

  function Then(first: seq<Step>, p: Phase): (q: Phase) { Phase(first + p.steps, p.next, p.over) }

  /** Ack, then leave the session block. */
  function DropPhase(w: nat, o: Outlook, n: nat): (p: Phase)
  {
    if Fails(o, n) then Phase([SettleRaises(w)], n + 1, Some(true))
    else Phase([Settle(w)], n + 2, Some(Fails(o, n + 1)))
  }

  /** The claim UPDATE raised: nack, then leave the session block. */
  function GiveBackPhase(w: nat, o: Outlook, n: nat): (p: Phase)
  {
    if Fails(o, n) then Phase([ClaimError(w), SettleRaises(w)], n + 1, Some(true))
    else Phase([ClaimError(w), Nack(w)], n + 2, Some(Fails(o, n + 1)))
  }

  /** The first session block; `queued` is what the row said when it was read. */
  function InspectPhase(w: nat, o: Outlook, n: nat, queued: bool): (p: Phase)
  {
    if Fails(o, n) then Phase([SessionFails(w)], n + 1, Some(true))
    else if !queued then Then([ReadStatus(w)], DropPhase(w, o, n + 1))
    else if Fails(o, n + 1) then Phase([ReadStatus(w), SessionFails(w)], n + 2, Some(true))
    else Phase([ReadStatus(w)], n + 2, None)
  }

  /** The second session block; `queued` is what the row said when the compare-and-swap met it. */
  function ClaimPhase(w: nat, o: Outlook, n: nat, queued: bool): (p: Phase)
  {
    if Fails(o, n) then GiveBackPhase(w, o, n + 1)
    else if !queued then Then([Claim(w, Acknowledged)], DropPhase(w, o, n + 1))
    else if Fails(o, n + 1) then Phase([Claim(w, CommitBy(o, n + 1))], n + 2, Some(true))
    else Phase([Claim(w, Acknowledged)], n + 2, None)
  }

  /** A part of the `try`: how far it got, and what it raised. */
  datatype Work<F> = Work(steps: seq<Step>, next: nat, failure: Option<F>)

  /** One part of the work after another. */
  function Next<F>(first: Work<F>, second: Work<F>): (k: Work<F>)
  {
    if first.failure.Some? then first else Work(first.steps + second.steps, second.next, second.failure)
  }

  /** One call that raises `failure` or goes well and is then recorded as a step. */
  function CallWork(w: nat, o: Outlook, n: nat, step: Step, failure: Failure): (k: Work<Failure>)
  {
    if Fails(o, n) then Work([Raise(w)], n + 1, Some(failure)) else Work([step], n + 1, None)
  }

  /** One call of which only a failure is recorded. */
  function ReadWork(w: nat, o: Outlook, n: nat): (k: Work<Failure>)
  {
    if Fails(o, n) then Work([Raise(w)], n + 1, Some(DatabaseFailure)) else Work([], n + 1, None)
  }

  /** The job row, then its document. */
  function LookupWork(w: nat, o: Outlook, n: nat): (k: Work<Failure>)
  {
    Next(ReadWork(w, o, n), ReadWork(w, o, n + 1))
  }

  /** The put may raise although the object was written. */
  function StoreWork(w: nat, o: Outlook, n: nat): (k: Work<Failure>)
  {
    if Fails(o, n) then Work((if o(n).done then [Store(w)] else []) + [Raise(w)], n + 1, Some(StorageFailure))
    else Work([Store(w)], n + 1, None)
  }

  function ProduceWork(w: nat, o: Outlook, n: nat): (k: Work<Failure>)
  {
    Next(CallWork(w, o, n, Fetch(w), StorageFailure),
         Next(CallWork(w, o, n + 1, Parse(w), ParserFailure), StoreWork(w, o, n + 2)))
  }

  /** The two statements of the completion; `free` says whether the drawn id can be the id of the artifact row. */
  function StageWork(w: nat, o: Outlook, n: nat, free: bool): (k: Work<Failure>)
  {
    if Fails(o, n) || !free then Work([Raise(w)], n + 1, Some(DatabaseFailure))
    else if Fails(o, n + 1) then Work([Raise(w)], n + 2, Some(DatabaseFailure))
    else Work([], n + 2, None)
  }

  /** `process`. */
  function ProcessWork(w: nat, o: Outlook, n: nat, free: bool): (k: Work<Failure>)
  {
    Next(LookupWork(w, o, n), Next(ProduceWork(w, o, n + 2), StageWork(w, o, n + 5, free)))
  }

  /** The commit of the completion and the ack. */
  function FinishWork(w: nat, o: Outlook, n: nat, artifact: Uuid): (k: Work<Failure>)
  {
    if Fails(o, n) then Work([Complete(w, artifact, CommitBy(o, n))], n + 1, Some(CommitFailure))
    else if Fails(o, n + 1) then Work([Complete(w, artifact, Acknowledged), SettleRaises(w)], n + 2, Some(AckFailure))
    else Work([Complete(w, artifact, Acknowledged), Settle(w)], n + 2, None)
  }

  function TryWork(w: nat, o: Outlook, n: nat, artifact: Uuid, free: bool): (k: Work<Failure>)
  {
    Next(ProcessWork(w, o, n, free), FinishWork(w, o, n + 7, artifact))
  }

  datatype Verdict = Escapes | Conflicts | Recorded

  /** The failure update and its commit. */
  datatype Recording = Recording(steps: seq<Step>, next: nat, verdict: Verdict)

  /** `started` is what the row said when the compare-and-swap met it. */
  function RecordPhase(w: nat, o: Outlook, n: nat, error: string, started: bool): (r: Recording)
  {
    if Fails(o, n) then Recording([Resolve(w, error, Unacknowledged(false))], n + 1, Escapes)
    else if !started then Recording([Resolve(w, error, Acknowledged)], n + 1, Conflicts)
    else if Fails(o, n + 1) then Recording([Resolve(w, error, CommitBy(o, n + 1))], n + 2, Escapes)
    else Recording([Resolve(w, error, Acknowledged)], n + 2, Recorded)
  }

  /** `_handle_failure`; it is over only by an exception. */
  function FailurePhase(w: nat, o: Outlook, n: nat, run: Attempt, error: string, started: bool): (p: Phase)
  {
    var r := RecordPhase(w, o, n, error, started);
    if r.verdict.Escapes? then Phase(r.steps, r.next, Some(true))
    else if r.verdict.Conflicts? || run.number >= run.limit then Phase(r.steps, r.next, None)
    else
      var send := SendBy(o, r.next);
      Phase(r.steps + [Reenqueue(w, send)], r.next + 1, if send.Broken? then Some(true) else None)
  }

  /** The `except` branch. */
  function ExceptPhase(w: nat, o: Outlook, n: nat, run: Attempt, error: string, started: bool): (p: Phase)
  {
    var f := FailurePhase(w, o, n, run, error, started);
    if f.over.Some? then f
    else Phase(f.steps + [if Fails(o, f.next) then SettleRaises(w) else Settle(w)], f.next + 1, Some(Fails(o, f.next)))
  }

  /** What `_handle` learns from the database, and the id drawn for the artifact row. */
  datatype Answers = Answers(read: bool, claim: bool, run: Attempt, artifact: Uuid, free: bool, started: bool)

  /** The `try` with its `except`; the recorded text is that of the exception caught. */
  function ExecutePhase(w: nat, o: Outlook, n: nat, a: Answers, text: Failure -> string): (p: Phase)
  {
    var k := TryWork(w, o, n, a.artifact, a.free);
    match k.failure
    case None => Phase(k.steps, k.next, Some(false))
    case Some(f) => Then(k.steps, ExceptPhase(w, o, k.next, a.run, text(f), a.started))
  }

  /** The second session block and what follows a won claim. */
  function AttemptPhase(w: nat, o: Outlook, n: nat, a: Answers, text: Failure -> string): (p: Phase)
  {
    var claim := ClaimPhase(w, o, n, a.claim);
    if claim.over.Some? then claim else Then(claim.steps, ExecutePhase(w, o, claim.next, a, text))
  }

  /** `_handle`. */
  function HandlePhase(w: nat, o: Outlook, n: nat, a: Answers, text: Failure -> string): (p: Phase)
  {
    var inspect := InspectPhase(w, o, n, a.read);
    if inspect.over.Some? then inspect else Then(inspect.steps, AttemptPhase(w, o, inspect.next, a, text))
  }

  /** The attempt ends with the completion of the job and the ack. */
  predicate AttemptSucceeds(w: nat, o: Outlook, n: nat, a: Answers)
  {
    var claim := ClaimPhase(w, o, n, a.claim);
    claim.over.None? && TryWork(w, o, claim.next, a.artifact, a.free).failure.None?
  }

  /** The message is handled to the completion of its job and the ack. */
  predicate Succeeds(w: nat, o: Outlook, n: nat, a: Answers)
  {
    var inspect := InspectPhase(w, o, n, a.read);
    inspect.over.None? && AttemptSucceeds(w, o, inspect.next, a)
  }

  /** The deliveries among the steps. */
  ghost function Deliveries(steps: seq<Step>): (n: nat)
  {
    if steps == [] then 0 else Deliveries(steps[..|steps| - 1]) + if steps[|steps| - 1].Deliver? then 1 else 0
  }

  // -------------------------------------------------------------------- their laws

  lemma {:induction false} DeliveriesAdd(a: seq<Step>, b: seq<Step>)
    ensures Deliveries(a + b) == Deliveries(a) + Deliveries(b)
  {
    if b == [] {
      assert a + b == a;
    } else {
      DeliveriesAdd(a, b[..|b| - 1]);
      assert (a + b)[..|a + b| - 1] == a + b[..|b| - 1];
    }
  }

  lemma {:induction false} NoDeliveries(steps: seq<Step>)
    requires NoDelivery(steps)
    ensures Deliveries(steps) == 0
  {
    if steps != [] { NoDeliveries(steps[..|steps| - 1]); }
  }

  /** Steps taken by two parts in turn are the steps of both. */
  lemma Joined<F>(before: seq<Step>, first: Work<F>, second: Work<F>)
    ensures first.failure.Some? ==> Next(first, second) == first
    ensures first.failure.None? ==>
              && before + first.steps + second.steps == before + Next(first, second).steps
              && Next(first, second).next == second.next && Next(first, second).failure == second.failure
  {
  }

  /** The number of calls a part makes when it goes well. */
  lemma GoesOn(w: nat, o: Outlook, n: nat, step: Step, failure: Failure, free: bool)
    ensures ReadWork(w, o, n).next == n + 1
    ensures CallWork(w, o, n, step, failure).next == n + 1
    ensures LookupWork(w, o, n).failure.None? ==> LookupWork(w, o, n).next == n + 2
    ensures ProduceWork(w, o, n).failure.None? ==> ProduceWork(w, o, n).next == n + 3
    ensures ProcessWork(w, o, n, free).failure.None? ==> ProcessWork(w, o, n, free).next == n + 7
  {
  }

  /** Each of the first two session blocks makes two calls when it goes on. */
  lemma BlocksMake(w: nat, o: Outlook, n: nat, queued: bool)
    ensures InspectPhase(w, o, n, queued).over.None? ==> InspectPhase(w, o, n, queued).next == n + 2
    ensures ClaimPhase(w, o, n, queued).over.None? ==> ClaimPhase(w, o, n, queued).next == n + 2
  {
  }

  lemma TryJoins(w: nat, o: Outlook, n: nat, before: seq<Step>, artifact: Uuid, free: bool)
    ensures var first, second, k := ProcessWork(w, o, n, free), FinishWork(w, o, n + 7, artifact), TryWork(w, o, n, artifact, free);
            if first.failure.Some? then k == first
            else
              && first.next == n + 7 && before + first.steps + second.steps == before + k.steps
              && k.next == second.next && k.failure == second.failure
  {
    GoesOn(w, o, n, Fetch(w), StorageFailure, free);
    hide ProcessWork, FinishWork;
    Joined(before, ProcessWork(w, o, n, free), FinishWork(w, o, n + 7, artifact));
  }

  /** `process` call by call: what has been done when the seven calls go well, or when one of them is the first to
      raise. */
  lemma ProcessTable(w: nat, o: Outlook, n: nat, free: bool)
    ensures ProcessWork(w, o, n, free) ==
      if Fails(o, n) then Work([Raise(w)], n + 1, Some(DatabaseFailure))
      else if Fails(o, n + 1) then Work([Raise(w)], n + 2, Some(DatabaseFailure))
      else if Fails(o, n + 2) then Work([Raise(w)], n + 3, Some(StorageFailure))
      else if Fails(o, n + 3) then Work([Fetch(w), Raise(w)], n + 4, Some(ParserFailure))
      else if Fails(o, n + 4) then
        Work([Fetch(w), Parse(w)] + (if o(n + 4).done then [Store(w)] else []) + [Raise(w)], n + 5, Some(StorageFailure))
      else if Fails(o, n + 5) || !free then Work([Fetch(w), Parse(w), Store(w), Raise(w)], n + 6, Some(DatabaseFailure))
      else if Fails(o, n + 6) then Work([Fetch(w), Parse(w), Store(w), Raise(w)], n + 7, Some(DatabaseFailure))
      else Work([Fetch(w), Parse(w), Store(w)], n + 7, None)
  {
    if !Fails(o, n) && !Fails(o, n + 1) && !Fails(o, n + 2) && !Fails(o, n + 3) && Fails(o, n + 4) {
      var stored := if o(n + 4).done then [Store(w)] else [];
      assert [Fetch(w)] + ([Parse(w)] + (stored + [Raise(w)])) == [Fetch(w), Parse(w)] + stored + [Raise(w)];
    }
  }

  /** When no call raises, a QUEUED job is claimed, processed, completed and acked, with thirteen calls. */
  lemma SmoothHandling(w: nat, o: Outlook, n: nat, a: Answers, text: Failure -> string)
    requires Smooth(o, n, n + 13) && a.read && a.claim && a.free
    ensures Succeeds(w, o, n, a)
    ensures HandlePhase(w, o, n, a, text)
         == Phase([ReadStatus(w), Claim(w, Acknowledged), Fetch(w), Parse(w), Store(w),
                   Complete(w, a.artifact, Acknowledged), Settle(w)], n + 13, Some(false))
  {
    var process := [Fetch(w), Parse(w), Store(w)];
    ProcessTable(w, o, n + 4, true);
    assert ProcessWork(w, o, n + 4, true) == Work(process, n + 11, None);
    assert FinishWork(w, o, n + 11, a.artifact) == Work([Complete(w, a.artifact, Acknowledged), Settle(w)], n + 13, None);
    assert TryWork(w, o, n + 4, a.artifact, true)
        == Work(process + [Complete(w, a.artifact, Acknowledged), Settle(w)], n + 13, None);
  }

  /** A job that is not QUEUED when it is read is only acked. */
  lemma SmoothDrop(w: nat, o: Outlook, n: nat, a: Answers, text: Failure -> string)
    requires Smooth(o, n, n + 3) && !a.read
    ensures HandlePhase(w, o, n, a, text) == Phase([ReadStatus(w), Settle(w)], n + 3, Some(false))
  {
  }

  /** The claim, by what raises: a raising UPDATE gives the message back, a conflict acks it, a raising commit does
      neither and leaves `_handle`. */
  lemma ClaimCases(w: nat, o: Outlook, n: nat, queued: bool)
    ensures var p := ClaimPhase(w, o, n, queued);
            && (Fails(o, n) ==>
                  && p.steps == [ClaimError(w), if Fails(o, n + 1) then SettleRaises(w) else Nack(w)]
                  && (p.over == Some(false) ==> !Fails(o, n + 1)))
            && (!Fails(o, n) && !queued ==>
                  p.steps == [Claim(w, Acknowledged), if Fails(o, n + 1) then SettleRaises(w) else Settle(w)])
            && (!Fails(o, n) && queued && Fails(o, n + 1) ==>
                  p.steps == [Claim(w, Unacknowledged(o(n + 1).done))] && p.over == Some(true))
            && (!Fails(o, n) && queued && !Fails(o, n + 1) ==> p == Phase([Claim(w, Acknowledged)], n + 2, None))
  {
  }

  predicate Settles(w: nat, step: Step) { step == Settle(w) || step == Nack(w) }

  /** `_handle` is always over in the end; without an exception the last thing it did was to settle the message. */
  lemma HandleIsOver(w: nat, o: Outlook, n: nat, a: Answers, text: Failure -> string)
    ensures var p := HandlePhase(w, o, n, a, text);
            && p.over.Some? && p.steps != [] && n < p.next
            && (p.over == Some(false) ==> Settles(w, p.steps[|p.steps| - 1]))
  {
    hide ExecutePhase;
    var inspect := InspectPhase(w, o, n, a.read);
    if inspect.over.None? {
      var claim := ClaimPhase(w, o, inspect.next, a.claim);
      if claim.over.None? { ExecuteIsOver(w, o, claim.next, a, text); }
    }
  }

  lemma ExecuteIsOver(w: nat, o: Outlook, n: nat, a: Answers, text: Failure -> string)
    ensures var p := ExecutePhase(w, o, n, a, text);
            && p.over.Some? && p.steps != [] && n < p.next
            && (p.over == Some(false) ==> Settles(w, p.steps[|p.steps| - 1]))
  {
    var k := TryWork(w, o, n, a.artifact, a.free);
    TryMoves(w, o, n, a.artifact, a.free);
    hide TryWork, ExceptPhase;
    if k.failure.Some? { ExceptIsOver(w, o, k.next, a.run, text(k.failure.value), a.started); }
  }

  lemma TryMoves(w: nat, o: Outlook, n: nat, artifact: Uuid, free: bool)
    ensures var k := TryWork(w, o, n, artifact, free);
            n < k.next && k.steps != [] && (k.failure.None? ==> k.steps[|k.steps| - 1] == Settle(w))
  {
    ProcessTable(w, o, n, free);
    hide ProcessWork;
  }

  lemma ExceptIsOver(w: nat, o: Outlook, n: nat, run: Attempt, error: string, started: bool)
    ensures var p := ExceptPhase(w, o, n, run, error, started);
            && p.over.Some? && p.steps != [] && n < p.next
            && (p.over == Some(false) ==> Settles(w, p.steps[|p.steps| - 1]))
  {
  }

  /** Every failure that is recorded carries the text of the exception that the `try` raised. */
  lemma RecordedText(w: nat, o: Outlook, n: nat, a: Answers, text: Failure -> string, i: nat)
    requires var p := ExecutePhase(w, o, n, a, text); i < |p.steps| && p.steps[i].Resolve?
    ensures var k := TryWork(w, o, n, a.artifact, a.free);
            k.failure.Some? && ExecutePhase(w, o, n, a, text).steps[i].error == text(k.failure.value)
  {
    TryNeverResolves(w, o, n, a.artifact, a.free);
    hide TryWork;
  }

  lemma TryNeverResolves(w: nat, o: Outlook, n: nat, artifact: Uuid, free: bool)
    ensures forall i :: 0 <= i < |TryWork(w, o, n, artifact, free).steps| ==> !TryWork(w, o, n, artifact, free).steps[i].Resolve?
  {
    ProcessTable(w, o, n, free);
    hide ProcessWork;
  }

  ghost predicate NoDelivery(steps: seq<Step>)
  {
    forall i :: 0 <= i < |steps| ==> !steps[i].Deliver?
  }

  /** Handling a message takes no other message. */
  lemma HandleTakesNone(w: nat, o: Outlook, n: nat, a: Answers, text: Failure -> string)
    ensures NoDelivery(HandlePhase(w, o, n, a, text).steps)
  {
    hide ExecutePhase;
    var inspect := InspectPhase(w, o, n, a.read);
    if inspect.over.None? {
      var claim := ClaimPhase(w, o, inspect.next, a.claim);
      if claim.over.None? { ExecuteTakesNone(w, o, claim.next, a, text); }
    }
  }

  lemma ExecuteTakesNone(w: nat, o: Outlook, n: nat, a: Answers, text: Failure -> string)
    ensures NoDelivery(ExecutePhase(w, o, n, a, text).steps)
  {
    hide TryWork, ExceptPhase;
    TryTakesNone(w, o, n, a.artifact, a.free);
    var k := TryWork(w, o, n, a.artifact, a.free);
    if k.failure.Some? { ExceptTakesNone(w, o, k.next, a.run, text(k.failure.value), a.started); }
  }

  lemma TryTakesNone(w: nat, o: Outlook, n: nat, artifact: Uuid, free: bool)
    ensures NoDelivery(TryWork(w, o, n, artifact, free).steps)
  {
    ProcessTable(w, o, n, free);
    hide ProcessWork;
  }

  lemma ExceptTakesNone(w: nat, o: Outlook, n: nat, run: Attempt, error: string, started: bool)
    ensures NoDelivery(ExceptPhase(w, o, n, run, error, started).steps)
  {
  }
}
