/** What `JobService.create` does, as a function of the answers it gets: the steps it takes, the calls it makes and what it
    raises. */
module Requests {
  import opened Wrappers
  import opened Keys
  import opened Schema
  import opened Protocol
  import opened Scripts

  datatype ApiError =
    | DocumentNotFound | DocumentNotUploaded | Backpressured | ActiveJob   // refusals
    | DatabaseUnavailable | StorageUnavailable | QueueUnavailable         // a call raised

  predicate Refusal(e: ApiError)
  {
    e.DocumentNotFound? || e.DocumentNotUploaded? || e.Backpressured? || e.ActiveJob?
  }

  /** What the services tell a request: whether the document is there and uploaded, how many messages are ready, and
      whether the drawn id or the place of the document's active job is taken. */
  datatype Replies = Replies(found: bool, uploaded: bool, ready: nat, taken: bool, busy: bool)

  function ValidateWork(r: nat, o: Outlook, n: nat, account: nat, doc: Uuid, found: bool, uploaded: bool): (k: Work<ApiError>)
  {
    if Fails(o, n) then Work([], n + 1, Some(DatabaseUnavailable))
    else if !found then Work([Submit(r, account, doc)], n + 1, Some(DocumentNotFound))
    else if Fails(o, n + 1) then Work([], n + 2, Some(StorageUnavailable))
    else Work([Submit(r, account, doc)], n + 2, if uploaded then None else Some(DocumentNotUploaded))
  }

  /** A misread depth is 0. */
  function DepthRead(o: Outlook, n: nat, ready: nat): (depth: nat)
  {
    if o(n).Misleads? then 0 else ready
  }

  function DepthWork(r: nat, o: Outlook, n: nat, ready: nat, threshold: nat): (k: Work<ApiError>)
  {
    if Fails(o, n) then Work([Abandon(r)], n + 1, Some(QueueUnavailable))
    else
      Work([CheckDepth(r, o(n).Misleads?)], n + 1, if DepthRead(o, n, ready) >= threshold then Some(Backpressured) else None)
  }

  /** The insert and its commit. */
  function InsertWork(r: nat, o: Outlook, n: nat, id: Uuid, taken: bool, busy: bool): (k: Work<ApiError>)
  {
    if Fails(o, n) || taken then Work([Abandon(r)], n + 1, Some(DatabaseUnavailable))
    else if busy then Work([Insert(r, id, Acknowledged)], n + 1, Some(ActiveJob))
    else Work([Insert(r, id, CommitBy(o, n + 1))], n + 2, if Fails(o, n + 1) then Some(DatabaseUnavailable) else None)
  }

  function PublishWork(r: nat, o: Outlook, n: nat): (k: Work<ApiError>)
  {
    var send := SendBy(o, n);
    Work([if send.Sent? || send.published then Publish(r) else Abandon(r)], n + 1,
         if send.Sent? then None else Some(QueueUnavailable))
  }

  function CommitAndPublishWork(r: nat, o: Outlook, n: nat, id: Uuid, taken: bool, busy: bool): (k: Work<ApiError>)
  {
    Next(InsertWork(r, o, n, id, taken, busy), PublishWork(r, o, n + 2))
  }

  /** From the depth read on. */
  function AdmitWork(r: nat, o: Outlook, n: nat, threshold: nat, id: Uuid, ready: nat, taken: bool, busy: bool)
    : (k: Work<ApiError>)
  {
    Next(DepthWork(r, o, n, ready, threshold), CommitAndPublishWork(r, o, n + 1, id, taken, busy))
  }

  /** `create`. */
  function CreateWork(r: nat, o: Outlook, n: nat, account: nat, doc: Uuid, threshold: nat, id: Uuid, a: Replies)
    : (k: Work<ApiError>)
  {
    Next(ValidateWork(r, o, n, account, doc, a.found, a.uploaded),
         AdmitWork(r, o, n + 2, threshold, id, a.ready, a.taken, a.busy))
  }

  // -------------------------------------------------------------------- their laws

  lemma CreateGoesOn(r: nat, o: Outlook, n: nat, account: nat, doc: Uuid, found: bool, uploaded: bool)
    ensures var k := ValidateWork(r, o, n, account, doc, found, uploaded); k.failure.None? ==> k.next == n + 2
  {
  }

  lemma AdmitJoins(before: seq<Step>, r: nat, o: Outlook, n: nat, threshold: nat, id: Uuid, ready: nat, taken: bool,
    busy: bool)
    ensures var first := DepthWork(r, o, n, ready, threshold);
            var second := CommitAndPublishWork(r, o, n + 1, id, taken, busy);
            var k := AdmitWork(r, o, n, threshold, id, ready, taken, busy);
            && first.next == n + 1
            && if first.failure.Some? then k == first
               else before + first.steps + second.steps == before + k.steps && k.next == second.next && k.failure == second.failure
  {
    Joined(before, DepthWork(r, o, n, ready, threshold), CommitAndPublishWork(r, o, n + 1, id, taken, busy));
  }

  lemma CommitAndPublishJoins(before: seq<Step>, r: nat, o: Outlook, n: nat, id: Uuid, taken: bool, busy: bool)
    ensures var first, second := InsertWork(r, o, n, id, taken, busy), PublishWork(r, o, n + 2);
            var k := CommitAndPublishWork(r, o, n, id, taken, busy);
            if first.failure.Some? then k == first
            else && first.next == n + 2 && before + first.steps + second.steps == before + k.steps
                 && k.next == second.next && k.failure == second.failure
  {
    Joined(before, InsertWork(r, o, n, id, taken, busy), PublishWork(r, o, n + 2));
  }

  /** The request gets as far as the commit of its row. */
  predicate ReachesCommit(o: Outlook, n: nat, threshold: nat, a: Replies)
  {
    && !Fails(o, n) && a.found && !Fails(o, n + 1) && a.uploaded
    && !Fails(o, n + 2) && DepthRead(o, n + 2, a.ready) < threshold
    && !Fails(o, n + 3) && !a.taken && !a.busy
  }

  /** The first obstacle decides the answer. */
  lemma CreateTable(r: nat, o: Outlook, n: nat, account: nat, doc: Uuid, threshold: nat, id: Uuid, a: Replies)
    ensures CreateWork(r, o, n, account, doc, threshold, id, a).failure ==
      if Fails(o, n) then Some(DatabaseUnavailable)
      else if !a.found then Some(DocumentNotFound)
      else if Fails(o, n + 1) then Some(StorageUnavailable)
      else if !a.uploaded then Some(DocumentNotUploaded)
      else if Fails(o, n + 2) then Some(QueueUnavailable)
      else if DepthRead(o, n + 2, a.ready) >= threshold then Some(Backpressured)
      else if Fails(o, n + 3) || a.taken then Some(DatabaseUnavailable)
      else if a.busy then Some(ActiveJob)
      else if Fails(o, n + 4) then Some(DatabaseUnavailable)
      else if Fails(o, n + 5) then Some(QueueUnavailable)
      else None
    ensures CreateWork(r, o, n, account, doc, threshold, id, a).failure.None? ==>
              CreateWork(r, o, n, account, doc, threshold, id, a)
              == Work([Submit(r, account, doc), CheckDepth(r, o(n + 2).Misleads?), Insert(r, id, Acknowledged), Publish(r)],
                      n + 6, None)
  {
  }

  /** When no call raises, a request is accepted if and only if nothing stands against it, and otherwise refused, unless
      the drawn id is taken. */
  lemma SmoothRequest(r: nat, o: Outlook, n: nat, account: nat, doc: Uuid, threshold: nat, id: Uuid, a: Replies)
    requires Smooth(o, n, n + 6)
    ensures var k := CreateWork(r, o, n, account, doc, threshold, id, a);
            && (k.failure.None? <==>
                  a.found && a.uploaded && DepthRead(o, n + 2, a.ready) < threshold && !a.taken && !a.busy)
            && (k.failure.Some? && !a.taken ==> Refusal(k.failure.value))
  {
    hide CreateWork;
    CreateTable(r, o, n, account, doc, threshold, id, a);
  }

  predicate Commits(step: Step, r: nat, id: Uuid)
  {
    step == Insert(r, id, Acknowledged) || step == Insert(r, id, Unacknowledged(true))
  }

  /** A row is committed only for a document without an active job and before its message is published; it stays without
      a message exactly when its commit raised although it was done, or its enqueue raised and was not. */
  lemma RowWithoutMessage(r: nat, o: Outlook, n: nat, account: nat, doc: Uuid, threshold: nat, id: Uuid, a: Replies)
    ensures var steps := CreateWork(r, o, n, account, doc, threshold, id, a).steps;
            && (Publish(r) in steps ==> |steps| == 4 && steps[2] == Insert(r, id, Acknowledged) && steps[3] == Publish(r))
            && ((!a.busy && (exists i :: 0 <= i < |steps| && Commits(steps[i], r, id)) && Publish(r) !in steps)
                <==> ReachesCommit(o, n, threshold, a)
                     && if Fails(o, n + 4) then o(n + 4).done else Fails(o, n + 5) && !o(n + 5).done)
  {
    var steps := CreateWork(r, o, n, account, doc, threshold, id, a).steps;
    if ReachesCommit(o, n, threshold, a) {
      var first := [Submit(r, account, doc), CheckDepth(r, o(n + 2).Misleads?)];
      var second := [Insert(r, id, CommitBy(o, n + 4))];
      if Fails(o, n + 4) {
        assert steps == first + second;
      } else {
        assert steps == first + second + PublishWork(r, o, n + 5).steps;
        assert steps[3] == PublishWork(r, o, n + 5).steps[0];
      }
      assert steps[2] == Insert(r, id, CommitBy(o, n + 4));
    }
  }
}
