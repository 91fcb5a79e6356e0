/** What a step leaves alone. */
module Frames {
  import opened Wrappers
  import opened Keys
  import opened Schema
  import opened Protocol
  import opened Ownership

  /** The worker whose task a step can change. */
  function Actor(step: Step): (w: Option<nat>)
  {
    match step
    case Start(w) => Some(w)
    case Deliver(w, _) => Some(w)
    case Begin(w) => Some(w)
    case ReadStatus(w) => Some(w)
    case SessionFails(w) => Some(w)
    case Claim(w, _) => Some(w)
    case ClaimError(w) => Some(w)
    case Settle(w) => Some(w)
    case SettleRaises(w) => Some(w)
    case Nack(w) => Some(w)
    case Fetch(w) => Some(w)
    case Parse(w) => Some(w)
    case Store(w) => Some(w)
    case Complete(w, _, _) => Some(w)
    case Raise(w) => Some(w)
    case Resolve(w, _, _) => Some(w)
    case Reenqueue(w, _) => Some(w)
    case Exit(w) => Some(w)
    case Die(w) => Some(w)
    case _ => None
  }

  predicate SameOthers(ws: Tasks, ws': Tasks, w: nat)
  {
    ws' == With(ws, w, TaskOf(ws', w))
  }

  // ------------------------------------- steps of a worker outside its transactions

  predicate Transaction(step: Step) { step.Claim? || step.Complete? || step.Resolve? }

  /** Such a step changes no row, no request and no other worker. */
  ghost predicate KeepsShared(s: State, t: State, w: nat)
  {
    && t.cfg == s.cfg && t.clock == s.clock && t.db == s.db && t.requests == s.requests
    && SameOthers(s.workers, t.workers, w) && t.stopping - {w} == s.stopping - {w}
  }

  lemma HandlingKeeps(s: State, step: Step)
    requires Enabled(s, step)
    requires step.ReadStatus? || step.SessionFails? || step.ClaimError? || step.SettleRaises? || step.Raise? || step.Parse?
    ensures KeepsShared(s, Do(s, step), step.w)
  {
  }

  lemma BrokerKeeps(s: State, step: Step)
    requires Enabled(s, step)
    requires step.Deliver? || step.Settle? || step.Nack? || step.Start?
    ensures KeepsShared(s, Do(s, step), step.w)
  {
    hide Returned, Acked;
  }

  lemma LeavingKeeps(s: State, step: Step)
    requires Enabled(s, step)
    requires step.Begin? || step.Exit? || step.Die?
    ensures KeepsShared(s, Do(s, step), step.w)
  {
    hide Returned;
  }

  lemma FetchKeeps(s: State, step: Step)
    requires Enabled(s, step)
    requires step.Fetch? || step.Store? || step.Reenqueue?
    ensures KeepsShared(s, Do(s, step), step.w)
  {
    hide Put, Enqueued, ArtifactKey;
  }

  lemma WorkerKeeps(s: State, step: Step)
    requires Enabled(s, step) && Actor(step).Some? && !Transaction(step)
    ensures KeepsShared(s, Do(s, step), Actor(step).value)
  {
    hide Do, Enabled, KeepsShared;
    if step.Deliver? || step.Settle? || step.Nack? || step.Start? {
      BrokerKeeps(s, step);
    } else if step.Begin? || step.Exit? || step.Die? {
      LeavingKeeps(s, step);
    } else if step.Fetch? || step.Store? || step.Reenqueue? {
      FetchKeeps(s, step);
    } else {
      HandlingKeeps(s, step);
    }
  }

  // ------------------------------------------------------------------ transactions

  /** A transaction changes job rows, artifact rows, its worker and the history, and nothing else. */
  ghost predicate KeepsRest(s: State, t: State, w: nat)
  {
    && t.cfg == s.cfg && t.clock == s.clock && t.requests == s.requests && t.broker == s.broker
    && t.stopping == s.stopping && t.objects == s.objects && t.db.docs == s.db.docs
    && SameOthers(s.workers, t.workers, w)
  }

  lemma ClaimKeeps(s: State, w: nat, commit: Commit)
    requires BusyAt(s.workers, w)
    ensures KeepsRest(s, DoClaim(s, w, commit), w)
  {
    hide UpdateStatus;
  }

  lemma CompleteKeeps(s: State, w: nat, a: Uuid, commit: Commit)
    requires BusyAt(s.workers, w) && StageOf(s.workers, w).Stored?
    ensures KeepsRest(s, DoComplete(s, w, a, commit), w)
  {
    hide UpdateStatus, UpsertArtifact;
  }

  lemma ResolveKeeps(s: State, w: nat, error: string, commit: Commit)
    requires BusyAt(s.workers, w) && StageOf(s.workers, w).Failing?
    ensures KeepsRest(s, DoResolve(s, w, error, commit), w)
  {
    hide UpdateStatus, FailureStatus;
  }

  lemma TransactionKeeps(s: State, step: Step)
    requires Enabled(s, step) && Transaction(step)
    ensures KeepsRest(s, Do(s, step), step.w)
  {
    hide DoClaim, DoComplete, DoResolve, KeepsRest;
    match step
    case Claim(w, commit) => ClaimKeeps(s, w, commit);
    case Complete(w, a, commit) => CompleteKeeps(s, w, a, commit);
    case Resolve(w, error, commit) => ResolveKeeps(s, w, error, commit);
  }

  // ------------------------------------------------- requests, clients, redelivery

  /** No step of anybody else touches a worker. */
  ghost predicate KeepsWorkers(s: State, t: State)
  {
    && t.cfg == s.cfg && t.clock == s.clock && t.workers == s.workers && t.orphaned == s.orphaned
    && t.db.artifacts == s.db.artifacts && s.stranded <= t.stranded
  }

  lemma ClientKeeps(s: State, step: Step)
    requires Enabled(s, step)
    requires step.Register? || step.Upload? || step.Submit? || step.Stop? || step.Redeliver?
    ensures KeepsWorkers(s, Do(s, step)) && Do(s, step).db.jobs == s.db.jobs
  {
    hide InsertDocument, Put, Returned;
  }

  lemma RequestKeeps(s: State, step: Step)
    requires Enabled(s, step)
    requires step.CheckDepth? || step.Publish? || step.Abandon? || step.Insert?
    ensures KeepsWorkers(s, Do(s, step)) && (!step.Insert? ==> Do(s, step).db.jobs == s.db.jobs)
  {
    hide InsertJob;
  }

  lemma OthersKeepWorkers(s: State, step: Step)
    requires Enabled(s, step) && Actor(step) == None
    ensures KeepsWorkers(s, Do(s, step)) && (!step.Insert? ==> Do(s, step).db.jobs == s.db.jobs)
  {
    hide Do, Enabled, KeepsWorkers;
    if step.CheckDepth? || step.Publish? || step.Abandon? || step.Insert? {
      RequestKeeps(s, step);
    } else {
      ClientKeeps(s, step);
    }
  }

  /** A worker's task is changed by its own steps only. */
  lemma TasksFrame(s: State, step: Step)
    requires Enabled(s, step)
    ensures match Actor(step)
            case Some(w) => SameOthers(s.workers, Do(s, step).workers, w)
            case None => Do(s, step).workers == s.workers
  {
    hide Do, Enabled, SameOthers;
    if Actor(step) == None { OthersKeepWorkers(s, step); }
    else if Transaction(step) { TransactionKeeps(s, step); }
    else { WorkerKeeps(s, step); }
  }

  /** Rows of jobs are written by transactions and by the insert of a request. */
  lemma JobsFrame(s: State, step: Step)
    requires Enabled(s, step) && !Transaction(step) && !step.Insert?
    ensures Do(s, step).db.jobs == s.db.jobs && Do(s, step).db.artifacts == s.db.artifacts
  {
    hide Do, Enabled;
    if Actor(step) == None { OthersKeepWorkers(s, step); } else { WorkerKeeps(s, step); }
  }

  /** A stop flag is changed by a stop signal and by its worker's start and end. */
  lemma StoppingFrame(s: State, step: Step, w: nat)
    requires Enabled(s, step) && Actor(step) != Some(w) && step != Stop(w)
    ensures w in Do(s, step).stopping <==> w in s.stopping
  {
    hide Do, Enabled;
    if Actor(step) == None { OthersStopping(s, step); }
    else if Transaction(step) { TransactionKeeps(s, step); }
    else {
      WorkerKeeps(s, step);
      var v := Actor(step).value;
      assert w in Do(s, step).stopping - {v} <==> w in s.stopping - {v};
    }
  }

  lemma OthersStopping(s: State, step: Step)
    requires Enabled(s, step) && Actor(step) == None
    ensures Do(s, step).stopping == s.stopping + if step.Stop? then {step.w} else {}
  {
    hide InsertDocument, InsertJob, Put, Returned;
  }

  lemma ClaimJob(s: State, w: nat, commit: Commit)
    requires BusyAt(s.workers, w)
    ensures BusyAt(DoClaim(s, w, commit).workers, w) && DoClaim(s, w, commit).workers[w].job == s.workers[w].job
  {
    hide UpdateStatus;
  }

  lemma CompleteJob(s: State, w: nat, a: Uuid, commit: Commit)
    requires BusyAt(s.workers, w) && StageOf(s.workers, w).Stored?
    ensures BusyAt(DoComplete(s, w, a, commit).workers, w) && DoComplete(s, w, a, commit).workers[w].job == s.workers[w].job
  {
    hide CompletedTables;
  }

  lemma ResolveJob(s: State, w: nat, error: string, commit: Commit)
    requires BusyAt(s.workers, w) && StageOf(s.workers, w).Failing?
    ensures BusyAt(DoResolve(s, w, error, commit).workers, w)
    ensures DoResolve(s, w, error, commit).workers[w].job == s.workers[w].job
  {
    hide UpdateStatus;
  }

  lemma ClaimHistory(s: State, w: nat, commit: Commit)
    requires BusyAt(s.workers, w)
    ensures s.orphaned <= DoClaim(s, w, commit).orphaned && s.stranded == DoClaim(s, w, commit).stranded
    ensures DoClaim(s, w, commit).broker == s.broker && DoClaim(s, w, commit).requests == s.requests
    ensures DoClaim(s, w, commit).stopping == s.stopping
  {
    hide UpdateStatus;
  }

  lemma ResolveHistory(s: State, w: nat, error: string, commit: Commit)
    requires BusyAt(s.workers, w) && StageOf(s.workers, w).Failing?
    ensures s.orphaned <= DoResolve(s, w, error, commit).orphaned && s.stranded <= DoResolve(s, w, error, commit).stranded
    ensures DoResolve(s, w, error, commit).broker == s.broker && DoResolve(s, w, error, commit).requests == s.requests
    ensures DoResolve(s, w, error, commit).stopping == s.stopping
  {
    hide UpdateStatus;
  }

  lemma CompleteHistory(s: State, w: nat, a: Uuid, commit: Commit)
    requires BusyAt(s.workers, w) && StageOf(s.workers, w).Stored?
    ensures s.orphaned == DoComplete(s, w, a, commit).orphaned && s.stranded == DoComplete(s, w, a, commit).stranded
    ensures DoComplete(s, w, a, commit).broker == s.broker && DoComplete(s, w, a, commit).requests == s.requests
    ensures DoComplete(s, w, a, commit).stopping == s.stopping
  {
    hide CompletedTables;
  }


  /** A worker outside its transactions adds to the history only by dying or by a failed re-enqueue. */
  lemma WorkerHistory(s: State, step: Step)
    requires Enabled(s, step) && Actor(step).Some? && !Transaction(step)
    ensures s.orphaned <= Do(s, step).orphaned && s.stranded <= Do(s, step).stranded
    ensures !step.Die? ==> Do(s, step).orphaned == s.orphaned
    ensures !step.Die? && !step.Reenqueue? ==> Do(s, step).stranded == s.stranded
  {
    hide Put, Enqueued, Returned, Acked;
  }

  lemma TransactionHistory(s: State, step: Step)
    requires Enabled(s, step) && Transaction(step)
    ensures s.orphaned <= Do(s, step).orphaned && s.stranded <= Do(s, step).stranded
    ensures !step.Resolve? ==> Do(s, step).stranded == s.stranded
    ensures step.Complete? ==> Do(s, step).orphaned == s.orphaned
  {
    hide DoClaim, DoComplete, DoResolve;
    match step
    case Claim(v, commit) => ClaimHistory(s, v, commit);
    case Complete(v, a, commit) => CompleteHistory(s, v, a, commit);
    case Resolve(v, error, commit) => ResolveHistory(s, v, error, commit);
  }

  /** The two history sets only grow. */
  lemma HistoryGrows(s: State, step: Step)
    requires Enabled(s, step)
    ensures s.orphaned <= Do(s, step).orphaned && s.stranded <= Do(s, step).stranded
  {
    hide Do, Enabled;
    if Actor(step) == None { OthersKeepWorkers(s, step); }
    else if Transaction(step) { TransactionHistory(s, step); }
    else { WorkerHistory(s, step); }
  }

  /** What a step does at the broker. */
  datatype Traffic =
    | Quiet
    | Published(job: Uuid)
    | Taken(w: nat, job: Uuid)
    | Settled(w: nat)
    | GivenBack(w: nat)

  function TrafficOf(s: State, step: Step): (t: Traffic)
    requires Enabled(s, step)
  {
    match step
    case Publish(r) => Published(s.requests[r].job)
    case Deliver(w, job) => Taken(w, job)
    case Begin(w) => if w in s.stopping then GivenBack(w) else Quiet
    case Settle(w) => Settled(w)
    case Nack(w) => GivenBack(w)
    case Reenqueue(w, send) => if send.Sent? || send.published then Published(s.workers[w].job) else Quiet
    case Exit(w) => GivenBack(w)
    case Die(w) => GivenBack(w)
    case Redeliver(w) => GivenBack(w)
    case _ => Quiet
  }

  function Carried(b: Broker, t: Traffic): (c: Broker)
  {
    match t
    case Quiet => b
    case Published(job) => Enqueued(b, job)
    case Taken(w, job) => Broker(b.ready - multiset{job}, b.unacked[w := job])
    case Settled(w) => Acked(b, w)
    case GivenBack(w) => Returned(b, w)
  }

  lemma ReenqueueBroker(s: State, w: nat, send: Send)
    requires BusyAt(s.workers, w)
    ensures DoReenqueue(s, w, send).broker
         == if send.Sent? || send.published then Enqueued(s.broker, s.workers[w].job) else s.broker
  {
  }

  lemma QuietApi(s: State, step: Step)
    requires Enabled(s, step)
    requires step.Register? || step.Upload? || step.Submit? || step.CheckDepth? || step.Insert? || step.Abandon?
    ensures Do(s, step).broker == s.broker
  {
    hide InsertJob, InsertDocument, Put;
  }

  lemma QuietWorker(s: State, step: Step)
    requires Enabled(s, step)
    requires step.Fetch? || step.ReadStatus? || step.SessionFails? || step.ClaimError? || step.SettleRaises?
             || step.Parse? || step.Store? || step.Raise?
    ensures Do(s, step).broker == s.broker
  {
    hide Put;
  }

  lemma QuietTransaction(s: State, step: Step)
    requires Enabled(s, step)
    requires step.Claim? || step.Complete? || step.Resolve?
    ensures Do(s, step).broker == s.broker
  {
    hide DoClaim, DoComplete, DoResolve;
    match step
    case Claim(v, commit) => ClaimHistory(s, v, commit);
    case Complete(v, a, commit) => CompleteHistory(s, v, a, commit);
    case Resolve(v, error, commit) => ResolveHistory(s, v, error, commit);
  }

  lemma LeaveBroker(s: State, w: nat)
    requires w in s.workers
    ensures DoDie(s, w).broker == Returned(s.broker, w)
    ensures BusyAt(s.workers, w) ==> DoBegin(s, w).broker == if w in s.stopping then Returned(s.broker, w) else s.broker
  {
    hide Returned;
  }

  lemma OutgoingBroker(s: State, step: Step)
    requires Enabled(s, step) && (step.Publish? || step.Deliver? || step.Settle?)
    ensures Do(s, step).broker == Carried(s.broker, TrafficOf(s, step))
  {
  }

  lemma IncomingBroker(s: State, step: Step)
    requires Enabled(s, step) && (step.Nack? || step.Exit? || step.Redeliver?)
    ensures Do(s, step).broker == Carried(s.broker, TrafficOf(s, step))
  {
  }

  lemma OtherBroker(s: State, step: Step)
    requires Enabled(s, step) && (step.Begin? || step.Reenqueue? || step.Die?)
    ensures Do(s, step).broker == Carried(s.broker, TrafficOf(s, step))
  {
    hide DoReenqueue, DoDie, DoBegin;
    if step.Reenqueue? { ReenqueueBroker(s, step.w, step.send); } else { LeaveBroker(s, step.w); }
  }

  /** Every step is one piece of broker traffic. */
  lemma BrokerStep(s: State, step: Step)
    requires Enabled(s, step)
    ensures Do(s, step).broker == Carried(s.broker, TrafficOf(s, step))
  {
    hide Do, Enabled, Enqueued, Acked, Returned;
    match step
    case Register(_, _) => QuietApi(s, step);
    case Upload(_, _) => QuietApi(s, step);
    case Submit(_, _, _) => QuietApi(s, step);
    case CheckDepth(_, _) => QuietApi(s, step);
    case Insert(_, _, _) => QuietApi(s, step);
    case Abandon(_) => QuietApi(s, step);
    case Claim(_, _) => QuietTransaction(s, step);
    case Complete(_, _, _) => QuietTransaction(s, step);
    case Resolve(_, _, _) => QuietTransaction(s, step);
    case Start(_) => QuietSwitch(s, step);
    case Stop(_) => QuietSwitch(s, step);
    case _ =>
      if step.Publish? || step.Deliver? || step.Settle? {
        OutgoingBroker(s, step);
      } else if step.Nack? || step.Exit? || step.Redeliver? {
        IncomingBroker(s, step);
      } else if step.Begin? || step.Reenqueue? || step.Die? {
        OtherBroker(s, step);
      } else {
        QuietWorker(s, step);
      }
  }

  lemma QuietSwitch(s: State, step: Step)
    requires Enabled(s, step) && (step.Start? || step.Stop?)
    ensures Do(s, step).broker == s.broker
  {
  }

  /** The request a step can change. */
  function RequestOf(step: Step): (r: Option<nat>)
  {
    match step
    case Submit(r, _, _) => Some(r)
    case CheckDepth(r, _) => Some(r)
    case Insert(r, _, _) => Some(r)
    case Publish(r) => Some(r)
    case Abandon(r) => Some(r)
    case _ => None
  }

  function RequestIn(rs: map<nat, Request>, r: nat): (o: Option<Request>)
  {
    if r in rs then Some(rs[r]) else None
  }



  /** Only a delivery to the worker makes it hold a message. */
  lemma HeldFrame(s: State, step: Step, w: nat)
    requires Enabled(s, step) && Actor(step) != Some(w)
    ensures w in Do(s, step).broker.unacked ==> w in s.broker.unacked
  {
    hide Do, Enabled, TrafficOf;
    BrokerStep(s, step);
    if TrafficOf(s, step).Taken? { TakenByActor(s, step); }
  }

  lemma TakenByActor(s: State, step: Step)
    requires Enabled(s, step) && TrafficOf(s, step).Taken?
    ensures Actor(step) == Some(TrafficOf(s, step).w)
  {
  }

  /** A request is changed by its own steps only. */
  lemma RequestsFrame(s: State, step: Step, r: nat)
    requires Enabled(s, step) && RequestOf(step) != Some(r)
    ensures RequestIn(Do(s, step).requests, r) == RequestIn(s.requests, r)
  {
    hide Do, Enabled;
    if Actor(step) == None { OthersRequests(s, step, r); }
    else if Transaction(step) { TransactionKeeps(s, step); }
    else { WorkerKeeps(s, step); }
  }

  lemma OthersRequests(s: State, step: Step, r: nat)
    requires Enabled(s, step) && Actor(step) == None && RequestOf(step) != Some(r)
    ensures RequestIn(Do(s, step).requests, r) == RequestIn(s.requests, r)
  {
    hide InsertDocument, InsertJob, Put, Returned;
  }

  /** Document rows are never changed or removed. */
  lemma DocumentsStay(s: State, step: Step, doc: Uuid)
    requires Enabled(s, step) && doc in s.db.docs
    ensures doc in Do(s, step).db.docs && Do(s, step).db.docs[doc] == s.db.docs[doc]
  {
    hide Do, Enabled;
    if Actor(step) == None { OthersDocuments(s, step, doc); }
    else if Transaction(step) { TransactionKeeps(s, step); }
    else { WorkerKeeps(s, step); }
  }

  lemma OthersDocuments(s: State, step: Step, doc: Uuid)
    requires Enabled(s, step) && Actor(step) == None && doc in s.db.docs
    ensures doc in Do(s, step).db.docs && Do(s, step).db.docs[doc] == s.db.docs[doc]
  {
    hide InsertJob, Put, Returned;
  }

  /** Only a start makes a worker. */
  lemma MovesIn(s: State, step: Step, w: nat)
    requires Enabled(s, step) && !step.Start? && w in Do(s, step).workers
    ensures w in s.workers
  {
    hide Do;
    TasksFrame(s, step);
    ActorIsIn(s, step);
  }

  lemma ActorIsIn(s: State, step: Step)
    requires Enabled(s, step) && !step.Start?
    ensures Actor(step).Some? ==> Actor(step).value in s.workers
  {
  }
}
