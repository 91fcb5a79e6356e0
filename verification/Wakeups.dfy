/** Who will look at a QUEUED row again: the invariant behind "no lost wake-up". */
module Wakeups {
  import opened Wrappers
  import opened Keys
  import opened Schema
  import opened Protocol
  import opened Ownership

  type Requests = map<nat, Request>

  /** A consumer holds a message only while it works on that job. */
  ghost predicate Linked(b: Broker, ws: Tasks)
  {
    forall w :: w in b.unacked ==> w in ws && ws[w].Busy? && ws[w].job == b.unacked[w]
  }

  /** Every id in a message or a request is the id of a committed row. */
  ghost predicate Known(jobs: Jobs, b: Broker, rs: Requests)
  {
    && (forall j: Uuid :: j in b.ready ==> j in jobs)
    && (forall r :: r in rs && rs[r].Inserted? ==> rs[r].job in jobs)
  }

  /** The holder of a message will claim its job, or give the message back. */
  predicate Wakeful(stage: Stage)
  {
    stage.Delivered? || stage.Received? || stage.Checked? || stage.Nacking? || stage.Raised?
  }

  /** The worker is about to re-enqueue the job, or still holds a message that it will act on or give back. */
  predicate Wakes(task: Task, job: Uuid, held: bool)
  {
    task.Busy? && task.job == job && (task.stage.Requeued? || (held && Wakeful(task.stage)))
  }

  predicate WakesAt(b: Broker, ws: Tasks, w: nat, job: Uuid)
  {
    w in ws && Wakes(ws[w], job, w in b.unacked)
  }

  predicate PublishesAt(rs: Requests, r: nat, job: Uuid)
  {
    r in rs && rs[r] == Inserted(job)
  }

  ghost predicate Witness(b: Broker, ws: Tasks, rs: Requests, job: Uuid)
  {
    || job in b.ready
    || (exists w :: WakesAt(b, ws, w, job))
    || (exists r :: PublishesAt(rs, r, job))
  }

  predicate IsQueued(jobs: Jobs, job: Uuid) { job in jobs && jobs[job].status.Queued? }

  ghost predicate Awake(jobs: Jobs, b: Broker, ws: Tasks, rs: Requests, stranded: set<Uuid>)
  {
    forall j: Uuid :: IsQueued(jobs, j) && j !in stranded ==> Witness(b, ws, rs, j)
  }

  /** One worker acts on its own job: only that job can lose a witness, and it does not. */
  lemma AwakeWorker(jobs: Jobs, b: Broker, ws: Tasks, rs: Requests, stranded: set<Uuid>,
                    w: nat, job: Uuid, jobs': Jobs, b': Broker, task: Option<Task>, stranded': set<Uuid>)
    requires Awake(jobs, b, ws, rs, stranded)
    requires w in ws && ws[w].Busy? ==> ws[w].job == job
    requires b.ready <= b'.ready && stranded <= stranded'
    requires forall v: nat :: v != w ==> (v in b.unacked <==> v in b'.unacked)
    requires forall j: Uuid :: j != job && IsQueued(jobs', j) ==> IsQueued(jobs, j)
    requires IsQueued(jobs', job) && job !in stranded' ==>
               || (IsQueued(jobs, job) && !WakesAt(b, ws, w, job))
               || job in b'.ready
               || (task.Some? && Wakes(task.value, job, w in b'.unacked))
    ensures Awake(jobs', b', With(ws, w, task), rs, stranded')
  {
    var ws' := With(ws, w, task);
    forall j: Uuid | IsQueued(jobs', j) && j !in stranded'
      ensures Witness(b', ws', rs, j)
    {
      if j == job && task.Some? && Wakes(task.value, job, w in b'.unacked) {
        assert WakesAt(b', ws', w, job);
      } else if j != job || job !in b'.ready {
        assert Witness(b, ws, rs, j);
        if v :| WakesAt(b, ws, v, j) {
          assert WakesAt(b', ws', v, j);
        }
      }
    }
  }

  /** A delivery turns a ready message into a held one. */
  lemma AwakeDeliver(jobs: Jobs, b: Broker, ws: Tasks, rs: Requests, stranded: set<Uuid>, w: nat, job: Uuid)
    requires Awake(jobs, b, ws, rs, stranded)
    requires w in ws && ws[w].Idle?
    ensures Awake(jobs, Broker(b.ready - multiset{job}, b.unacked[w := job]), ws[w := Busy(job, Delivered)], rs, stranded)
  {
    var b', ws' := Broker(b.ready - multiset{job}, b.unacked[w := job]), ws[w := Busy(job, Delivered)];
    forall j: Uuid | IsQueued(jobs, j) && j !in stranded
      ensures Witness(b', ws', rs, j)
    {
      if j == job {
        assert WakesAt(b', ws', w, j);
      } else if v :| WakesAt(b, ws, v, j) {
        assert WakesAt(b', ws', v, j);
      }
    }
  }

  /** A request inserts its job, publishes it, or ends. */
  lemma AwakeRequest(jobs: Jobs, b: Broker, ws: Tasks, rs: Requests, stranded: set<Uuid>,
                     r: nat, jobs': Jobs, b': Broker, rs': Requests, stranded': set<Uuid>)
    requires Awake(jobs, b, ws, rs, stranded)
    requires b.ready <= b'.ready && b'.unacked == b.unacked && stranded <= stranded'
    requires forall q :: q != r && q in rs ==> q in rs' && rs'[q] == rs[q]
    requires forall j: Uuid :: IsQueued(jobs', j) && !IsQueued(jobs, j) ==> j in stranded' || PublishesAt(rs', r, j)
    requires forall j: Uuid :: PublishesAt(rs, r, j) ==> j in stranded' || j in b'.ready || PublishesAt(rs', r, j)
    ensures Awake(jobs', b', ws, rs', stranded')
  {
    forall j: Uuid | IsQueued(jobs', j) && j !in stranded'
      ensures Witness(b', ws, rs', j)
    {
      if IsQueued(jobs, j) {
        if w :| WakesAt(b, ws, w, j) {
          assert WakesAt(b', ws, w, j);
        } else if q :| PublishesAt(rs, q, j) {
          assert q != r ==> PublishesAt(rs', q, j);
        }
      }
    }
  }
}
