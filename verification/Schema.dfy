/** The committed rows and what each SQL statement of the repositories does to them. */
module Schema {
  import opened Wrappers
  import opened Keys

  datatype Document = Document(account: nat, key: string)

  datatype Status = Queued | Started | Completed | Failed

  datatype Job = Job(
    account: nat,
    doc: Uuid,
    status: Status,
    attempts: nat,
    maxAttempts: nat,
    error: Option<string>,
    createdAt: nat,
    queuedAt: Option<nat>,
    startedAt: Option<nat>,
    completedAt: Option<nat>,
    lastAttemptAt: Option<nat>,
    failedAt: Option<nat>)

  datatype Kind = Markdown

  datatype Artifact = Artifact(id: Uuid, job: Uuid, doc: Uuid, kind: Kind, key: string, createdAt: nat)

  type Jobs = map<Uuid, Job>

  /** One database state; `artifacts` lists the rows in the order they were inserted. */
  datatype Tables = Tables(docs: map<Uuid, Document>, jobs: Jobs, artifacts: seq<Artifact>)

  datatype SqlError = ActiveJobExists | StateConflict | DatabaseError

  // ---------------------------------------------------------------- documents

  function GetDocument(docs: map<Uuid, Document>, doc: Uuid, account: nat): (r: Option<Document>)
  {
    if doc in docs && docs[doc].account == account then Some(docs[doc]) else None
  }

  /** The primary key and the unique constraint on `object_key`. */
  function InsertDocument(docs: map<Uuid, Document>, doc: Uuid, row: Document)
    : (r: Result<map<Uuid, Document>, SqlError>)
  {
    if doc in docs || (exists d :: d in docs && docs[d].key == row.key) then Err(DatabaseError)
    else Ok(docs[doc := row])
  }

  /** A document is inserted if and only if its id and its object key are unused, and then it is the one new row. */
  lemma DocumentInsert(docs: map<Uuid, Document>, doc: Uuid, row: Document)
    ensures var r := InsertDocument(docs, doc, row);
            && (r.Ok? <==> doc !in docs && forall d :: d in docs ==> docs[d].key != row.key)
            && (r.Ok? ==> r.value.Keys == docs.Keys + {doc} && r.value[doc] == row
                          && forall d :: d in docs ==> d != doc && r.value[d] == docs[d])
            && (r.Err? ==> r.error.DatabaseError?)
  {
  }

  // --------------------------------------------------------------------- jobs

  predicate Active(row: Job) { row.status.Queued? || row.status.Started? }

  predicate SameDocument(a: Job, b: Job) { a.account == b.account && a.doc == b.doc }

  /** Storing `row` under `id` would break the index `one_active_job_per_document`. */
  predicate Clash(jobs: Jobs, id: Uuid, row: Job)
  {
    Active(row) && exists i :: i in jobs && i != id && Active(jobs[i]) && SameDocument(jobs[i], row)
  }

  ghost predicate IndexHolds(jobs: Jobs)
  {
    forall i, j :: i in jobs && j in jobs && Active(jobs[i]) && Active(jobs[j]) && SameDocument(jobs[i], jobs[j])
                   ==> i == j
  }

  function NewJob(account: nat, doc: Uuid, maxAttempts: nat, now: nat): (row: Job)
  {
    Job(account, doc, Queued, 0, maxAttempts, None, now, Some(now), None, None, None, None)
  }

  function InsertJob(t: Tables, id: Uuid, row: Job): (r: Result<Jobs, SqlError>)
  {
    if id in t.jobs then Err(DatabaseError)
    else if Clash(t.jobs, id, row) then Err(ActiveJobExists)
    else if row.doc !in t.docs then Err(DatabaseError)
    else Ok(t.jobs[id := row])
  }

  /** The `values` dictionary of `update_status`, applied to a row. */
  function Stamp(row: Job, status: Status, error: Option<string>, now: nat): (r: Job)
  {
    var r := row.(status := status, error := if error.Some? then error else row.error);
    match status
    case Queued => r.(queuedAt := Some(now))
    case Started => r.(startedAt := Some(now), lastAttemptAt := Some(now), attempts := row.attempts + 1)
    case Completed => r.(completedAt := Some(now))
    case Failed => r.(failedAt := Some(now))
  }

  /** The compare-and-swap UPDATE: the row must exist and have the expected status. */
  function UpdateStatus(jobs: Jobs, id: Uuid, status: Status, expected: Status, error: Option<string>, now: nat)
    : (r: Result<Jobs, SqlError>)
    ensures r.Ok? ==> id in r.value
  {
    if id !in jobs || jobs[id].status != expected then Err(StateConflict)
    else
      var row := Stamp(jobs[id], status, error, now);
      if Clash(jobs, id, row) then Err(DatabaseError) else Ok(jobs[id := row])
  }

  // ---------------------------------------------------------------- artifacts

  /** Position of the row that the conflict target (document_id, artifact_type) selects. */
  function FindArtifact(rows: seq<Artifact>, doc: Uuid, kind: Kind): (r: Option<nat>)
    ensures r.Some? ==> r.value < |rows| && rows[r.value].doc == doc && rows[r.value].kind == kind
    ensures r.None? ==> forall i :: 0 <= i < |rows| ==> rows[i].doc != doc || rows[i].kind != kind
  {
    if rows == [] then None
    else if rows[|rows| - 1].doc == doc && rows[|rows| - 1].kind == kind then Some(|rows| - 1)
    else FindArtifact(rows[..|rows| - 1], doc, kind)
  }

  /** INSERT ... ON CONFLICT DO UPDATE SET job_id, object_key. */
  function UpsertArtifact(t: Tables, row: Artifact): (r: Result<seq<Artifact>, SqlError>)
  {
    if row.job !in t.jobs || row.doc !in t.docs then Err(DatabaseError)
    else
      match FindArtifact(t.artifacts, row.doc, row.kind)
      case Some(i) => Ok(t.artifacts[i := t.artifacts[i].(job := row.job, key := row.key)])
      case None =>
        if exists i :: 0 <= i < |t.artifacts| && t.artifacts[i].id == row.id then Err(DatabaseError)
        else Ok(t.artifacts + [row])
  }

  /** The rows of `list_by_document_id`: joined to the document, filtered by its owner. */
  function ListArtifacts(t: Tables, rows: seq<Artifact>, doc: Uuid, account: nat): (r: seq<Artifact>)
    ensures forall a :: a in r <==> a in rows && a.doc == doc && doc in t.docs && t.docs[doc].account == account
  {
    if rows == [] then []
    else
      var rest := ListArtifacts(t, rows[..|rows| - 1], doc, account);
      var a := rows[|rows| - 1];
      if a.doc == doc && doc in t.docs && t.docs[doc].account == account then rest + [a] else rest
  }

  /** A row is listed as often as it is in the table, if it is listed at all. */
  lemma {:induction false} ListingCounts(t: Tables, rows: seq<Artifact>, doc: Uuid, account: nat, a: Artifact)
    ensures multiset(ListArtifacts(t, rows, doc, account))[a]
         == if a.doc == doc && doc in t.docs && t.docs[doc].account == account then multiset(rows)[a] else 0
  {
    if rows != [] {
      ListingCounts(t, rows[..|rows| - 1], doc, account, a);
      assert rows == rows[..|rows| - 1] + [rows[|rows| - 1]];
    }
  }

  // -------------------------------------------------------- laws of one UPDATE

  /** What a caller sees of the update: it conflicts exactly when the row is missing or not in the expected status, it
      writes no other row, it counts an attempt only when it starts one, it stamps the new status and no other, and it
      writes the error message only when there is one. */
  lemma UpdateOutcome(jobs: Jobs, id: Uuid, status: Status, expected: Status, error: Option<string>, now: nat)
    ensures var r := UpdateStatus(jobs, id, status, expected, error, now);
            && (r == Err(StateConflict) <==> id !in jobs || jobs[id].status != expected)
            && (r.Err? ==> r.error.StateConflict? || r.error.DatabaseError?)
            && (r.Ok? ==>
                  && r.value.Keys == jobs.Keys && id in jobs
                  && (forall j :: j in jobs && j != id ==> r.value[j] == jobs[j])
                  && var before, after := jobs[id], r.value[id];
                     && after.status == status && SameDocument(before, after)
                     && after.maxAttempts == before.maxAttempts && after.createdAt == before.createdAt
                     && after.attempts == before.attempts + (if status.Started? then 1 else 0)
                     && after.queuedAt == (if status.Queued? then Some(now) else before.queuedAt)
                     && after.startedAt == (if status.Started? then Some(now) else before.startedAt)
                     && after.lastAttemptAt == (if status.Started? then Some(now) else before.lastAttemptAt)
                     && after.completedAt == (if status.Completed? then Some(now) else before.completedAt)
                     && after.failedAt == (if status.Failed? then Some(now) else before.failedAt)
                     && after.error == (if error.Some? then error else before.error))
  {
  }

  /** An UPDATE that keeps or leaves the active set cannot violate the index. */
  lemma UpdateKeepsIndex(jobs: Jobs, id: Uuid, status: Status, expected: Status, error: Option<string>, now: nat)
    requires IndexHolds(jobs)
    requires id in jobs && jobs[id].status == expected
    requires expected.Queued? || expected.Started?
    ensures UpdateStatus(jobs, id, status, expected, error, now)
         == Ok(jobs[id := Stamp(jobs[id], status, error, now)])
    ensures IndexHolds(jobs[id := Stamp(jobs[id], status, error, now)])
  {
  }

  /** Only an INSERT can be refused by the index, and it is exactly when the document has an active job. */
  lemma InsertAndIndex(t: Tables, id: Uuid, account: nat, doc: Uuid, maxAttempts: nat, now: nat)
    requires IndexHolds(t.jobs) && id !in t.jobs && doc in t.docs
    ensures var r := InsertJob(t, id, NewJob(account, doc, maxAttempts, now));
            && (r.Err? <==> exists i :: i in t.jobs && Active(t.jobs[i])
                              && t.jobs[i].account == account && t.jobs[i].doc == doc)
            && (r.Err? ==> r.error.ActiveJobExists?)
            && (r.Ok? ==> IndexHolds(r.value))
  {
    var row := NewJob(account, doc, maxAttempts, now);
    if i :| i in t.jobs && Active(t.jobs[i]) && t.jobs[i].account == account && t.jobs[i].doc == doc {
      assert SameDocument(t.jobs[i], row);
      assert Clash(t.jobs, id, row);
    }
  }

  /** What a caller sees of the insert: a free id, a document and no active job of it are what it takes; the table gains
      one row and keeps the others, and the new row is QUEUED, untried and stamped with the time of the insert. */
  lemma InsertOutcome(t: Tables, id: Uuid, account: nat, doc: Uuid, maxAttempts: nat, now: nat)
    ensures var r := InsertJob(t, id, NewJob(account, doc, maxAttempts, now));
            var busy := exists i :: i in t.jobs && Active(t.jobs[i]) && t.jobs[i].account == account && t.jobs[i].doc == doc;
            && (r.Ok? <==> id !in t.jobs && !busy && doc in t.docs)
            && (r == Err(ActiveJobExists) <==> id !in t.jobs && busy)
            && (r.Err? ==> r.error.ActiveJobExists? || r.error.DatabaseError?)
            && (r.Ok? ==>
                  && r.value.Keys == t.jobs.Keys + {id}
                  && (forall j :: j in t.jobs ==> j != id && r.value[j] == t.jobs[j])
                  && var row := r.value[id];
                     && row.account == account && row.doc == doc && row.maxAttempts == maxAttempts
                     && row.status.Queued? && row.attempts == 0 && row.error.None?
                     && row.createdAt == now && row.queuedAt == Some(now)
                     && row.startedAt.None? && row.lastAttemptAt.None? && row.completedAt.None? && row.failedAt.None?)
  {
    var row := NewJob(account, doc, maxAttempts, now);
    if i :| i in t.jobs && Active(t.jobs[i]) && t.jobs[i].account == account && t.jobs[i].doc == doc {
      assert SameDocument(t.jobs[i], row);
    }
  }

  // ------------------------------------------------------------- shape of a row

  /** What every row looks like at time `now`, whatever happened before. */
  predicate RowShape(r: Job, now: nat)
  {
    && r.maxAttempts >= 1
    && (r.status.Queued? ==> r.attempts < r.maxAttempts)
    && (!r.status.Queued? ==> 1 <= r.attempts <= r.maxAttempts)
    && (r.status.Failed? ==> r.attempts == r.maxAttempts)
    && (r.completedAt.Some? <==> r.status.Completed?)
    && (r.failedAt.Some? <==> r.status.Failed?)
    && (r.startedAt.Some? <==> r.attempts >= 1)
    && r.lastAttemptAt == r.startedAt
    && (r.error.Some? <==> r.attempts >= 2 || r.status.Failed? || (r.status.Queued? && r.attempts == 1))
    && r.queuedAt.Some?
    && r.createdAt <= r.queuedAt.value <= now
    && (r.attempts == 0 ==> r.queuedAt.value == r.createdAt)
    && (r.startedAt.Some? ==> r.createdAt <= r.startedAt.value <= now)
    && (r.startedAt.Some? && r.status.Queued? ==> r.startedAt.value <= r.queuedAt.value)
    && (r.startedAt.Some? && !r.status.Queued? ==> r.queuedAt.value <= r.startedAt.value)
    && (r.completedAt.Some? ==> r.startedAt.Some? && r.startedAt.value <= r.completedAt.value <= now)
    && (r.failedAt.Some? ==> r.startedAt.Some? && r.startedAt.value <= r.failedAt.value <= now)
  }

  datatype Life = Life(status: Status, attempts: nat, limit: nat)

  function LifeOf(r: Job): (l: Life) { Life(r.status, r.attempts, r.maxAttempts) }

  /** The published lifecycle of a job. */
  predicate LifeStep(a: Life, b: Life)
  {
    && a.limit == b.limit
    && match (a.status, b.status)
       case (Queued, Started) => b.attempts == a.attempts + 1
       case (Started, Completed) => b.attempts == a.attempts
       case (Started, Queued) => b.attempts == a.attempts < a.limit
       case (Started, Failed) => b.attempts == a.attempts >= a.limit
       case _ => false
  }

  /** A row keeps its shape along every edge of the lifecycle, stamped at a later time. */
  lemma StampKeepsShape(r: Job, status: Status, error: Option<string>, before: nat, now: nat)
    requires RowShape(r, before) && before <= now
    requires LifeStep(LifeOf(r), LifeOf(Stamp(r, status, error, now)))
    requires error.Some? <==> status.Queued? || status.Failed?
    ensures RowShape(Stamp(r, status, error, now), now)
  {
  }

  // ---------------------------------------- the artifact table refines a map

  ghost predicate UniqueArtifacts(rows: seq<Artifact>)
  {
    && (forall i, j :: 0 <= i < j < |rows| ==> rows[i].doc != rows[j].doc || rows[i].kind != rows[j].kind)
    && (forall i, j :: 0 <= i < j < |rows| ==> rows[i].id != rows[j].id)
  }

  /** What a reader of the table can look up for one (document, type). */
  function Lookup(rows: seq<Artifact>, doc: Uuid, kind: Kind): (r: Option<(Uuid, string)>)
  {
    match FindArtifact(rows, doc, kind)
    case None => None
    case Some(i) => Some((rows[i].job, rows[i].key))
  }

  /** The drawn id can be the id of the row that an upsert for this (document, type) leaves. */
  predicate RowIdFree(rows: seq<Artifact>, doc: Uuid, kind: Kind, id: Uuid)
  {
    Lookup(rows, doc, kind).Some? || forall i :: 0 <= i < |rows| ==> rows[i].id != id
  }

  lemma UpsertSucceeds(t: Tables, row: Artifact)
    requires row.job in t.jobs && row.doc in t.docs
    ensures UpsertArtifact(t, row).Ok? <==> RowIdFree(t.artifacts, row.doc, row.kind, row.id)
  {
    hide FindArtifact;
  }

  lemma FoundAt(rows: seq<Artifact>, i: nat)
    requires UniqueArtifacts(rows) && i < |rows|
    ensures FindArtifact(rows, rows[i].doc, rows[i].kind) == Some(i)
  {
    var f := FindArtifact(rows, rows[i].doc, rows[i].kind);
    if f.Some? && f.value < i {
      assert false;
    } else if f.Some? && f.value > i {
      assert false;
    }
  }

  /** No upsert makes a second row for a (document, type), and no row ever loses its place, its id or its creation time;
      one row is added, with the drawn id and the time of the upsert, if and only if there was none. */
  lemma UpsertKeepsRows(t: Tables, row: Artifact)
    requires UniqueArtifacts(t.artifacts)
    requires UpsertArtifact(t, row).Ok?
    ensures var rows, found := UpsertArtifact(t, row).value, Lookup(t.artifacts, row.doc, row.kind).Some?;
            && UniqueArtifacts(rows)
            && |rows| == |t.artifacts| + (if found then 0 else 1)
            && (!found ==> rows[|t.artifacts|] == row)
            && (forall i :: 0 <= i < |t.artifacts| && (rows[i].doc != row.doc || rows[i].kind != row.kind) ==>
                  rows[i] == t.artifacts[i])
            && (forall i :: 0 <= i < |t.artifacts| ==>
                  && rows[i].id == t.artifacts[i].id
                  && rows[i].createdAt == t.artifacts[i].createdAt
                  && rows[i].doc == t.artifacts[i].doc
                  && rows[i].kind == t.artifacts[i].kind)
  {
  }

  lemma LookupAppended(rows: seq<Artifact>, row: Artifact, doc: Uuid, kind: Kind)
    ensures Lookup(rows + [row], doc, kind)
         == if row.doc == doc && row.kind == kind then Some((row.job, row.key)) else Lookup(rows, doc, kind)
  {
    var after := rows + [row];
    assert after[|after| - 1] == row && after[..|after| - 1] == rows;
  }

  lemma LookupReplaced(rows: seq<Artifact>, i: nat, job: Uuid, key: string, doc: Uuid, kind: Kind)
    requires i < |rows| && UniqueArtifacts(rows)
    ensures Lookup(rows[i := rows[i].(job := job, key := key)], doc, kind)
         == if rows[i].doc == doc && rows[i].kind == kind then Some((job, key)) else Lookup(rows, doc, kind)
  {
    var after := rows[i := rows[i].(job := job, key := key)];
    assert UniqueArtifacts(after);
    var f := FindArtifact(rows, doc, kind);
    if f.Some? {
      FoundAt(after, f.value);
      FoundAt(rows, i);
    } else {
      assert forall k :: 0 <= k < |after| ==> after[k].doc == rows[k].doc && after[k].kind == rows[k].kind;
    }
  }

  /** The table behaves as a map: an upsert sets the entry of its (document, type) and keeps the others. */
  lemma UpsertRefinesMap(t: Tables, row: Artifact, doc: Uuid, kind: Kind)
    requires UniqueArtifacts(t.artifacts)
    requires UpsertArtifact(t, row).Ok?
    ensures Lookup(UpsertArtifact(t, row).value, doc, kind)
         == if doc == row.doc && kind == row.kind then Some((row.job, row.key)) else Lookup(t.artifacts, doc, kind)
  {
    match FindArtifact(t.artifacts, row.doc, row.kind)
    case None => LookupAppended(t.artifacts, row, doc, kind);
    case Some(i) => LookupReplaced(t.artifacts, i, row.job, row.key, doc, kind);
  }
}
