/** The shared services as mutable objects: the database and its sessions, the object store, the parser, the broker.
    Every call may raise; which ones do is fixed by an outlook before the code runs. */
module Infrastructure {
  import opened Wrappers
  import opened Keys
  import opened Schema
  import opened Protocol
  import opened Scripts

  /** The calls that the running code makes: how each of them goes, how many it has made, and the random id it would
      draw before each.  `refused` counts those that a service turned down although it worked: a constraint violation
      or a missing object. */
  class CallLog {
    const weather: Outlook
    const ids: nat -> Uuid
    var count: nat
    ghost var refused: nat

    constructor (weather: Outlook, ids: nat -> Uuid)
      ensures this.weather == weather && this.ids == ids && count == 0 && refused == 0
    {
      this.weather, this.ids := weather, ids;
      count, refused := 0, 0;
    }

    /** The next call. */
    method Next() returns (w: Weather)
      modifies this`count
      ensures w == weather(old(count)) && count == old(count) + 1
    {
      w := weather(count);
      count := count + 1;
    }

    /** `uuid4()`. */
    method Uuid4() returns (id: Uuid)
      ensures id == ids(count)
    {
      id := ids(count);
    }

    /** The calls that raised, by the outlook or by refusal. */
    ghost function Troubles(): (n: nat)
      reads this
    {
      FailedCalls(weather, count) + refused
    }
  }

  ghost function FailedCalls(o: Outlook, n: nat): (k: nat)
  {
    if n == 0 then 0 else FailedCalls(o, n - 1) + if Fails(o, n - 1) then 1 else 0
  }

  class Database {
    const log: CallLog
    var tables: Tables

    constructor (log: CallLog)
      ensures this.log == log && tables == Tables(map[], map[], [])
    {
      this.log := log;
      tables := Tables(map[], map[], []);
    }
  }

  /** One `open_session` block.  Writes are staged on the tables as they are at the first of them; the row locks of
      the database keep others away until commit or rollback.  A statement that raises changes nothing. */
  class Session {
    const db: Database
    var staged: Tables
    var dirty: bool

    constructor (db: Database)
      ensures this.db == db && !dirty
    {
      this.db := db;
      staged := db.tables;
      dirty := false;
    }

    /** What a statement of this session sees. */
    function Seen(): (t: Tables)
      reads this, db
    {
      if dirty then staged else db.tables
    }

    /** One call was made, and it was or was not refused. */
    twostate predicate Called(refused: bool)
      reads db.log
    {
      db.log.count == old(db.log.count) + 1 && db.log.refused == old(db.log.refused) + if refused then 1 else 0
    }

    method GetForProcessing(job: Uuid) returns (r: Result<Option<Job>, SqlError>)
      modifies db.log
      ensures Called(false)
      ensures r == if Fails(db.log.weather, old(db.log.count)) then Err(DatabaseError)
                   else Ok(if job in Seen().jobs then Some(Seen().jobs[job]) else None)
    {
      var t := Seen();
      var w := db.log.Next();
      r := if w.Raises? then Err(DatabaseError) else Ok(if job in t.jobs then Some(t.jobs[job]) else None);
    }

    method GetDocument(doc: Uuid, account: nat) returns (r: Result<Option<Document>, SqlError>)
      modifies db.log
      ensures Called(false)
      ensures r == if Fails(db.log.weather, old(db.log.count)) then Err(DatabaseError)
                   else Ok(Schema.GetDocument(Seen().docs, doc, account))
    {
      var t := Seen();
      var w := db.log.Next();
      if w.Raises? { return Err(DatabaseError); }
      if doc in t.docs && t.docs[doc].account == account {
        r := Ok(Some(t.docs[doc]));
      } else {
        r := Ok(None);
      }
    }

    method CreateDocument(doc: Uuid, row: Document) returns (r: Result<(), SqlError>)
      modifies this, db.log
      ensures var inserted := InsertDocument(old(Seen()).docs, doc, row);
              if Fails(db.log.weather, old(db.log.count)) || inserted.Err? then
                && r == Err(DatabaseError) && staged == old(staged) && dirty == old(dirty)
                && Called(!Fails(db.log.weather, old(db.log.count)))
              else r.Ok? && dirty && staged == old(Seen()).(docs := inserted.value) && Called(false)
    {
      var t := Seen();
      var w := db.log.Next();
      if w.Raises? { return Err(DatabaseError); }
      var docs := InsertDocument(t.docs, doc, row);
      if docs.Err? {
        db.log.refused := db.log.refused + 1;
        return Err(docs.error);
      }
      staged, dirty := t.(docs := docs.value), true;
      r := Ok(());
    }

    method CreateJob(id: Uuid, account: nat, doc: Uuid, maxAttempts: nat, now: nat) returns (r: Result<Job, SqlError>)
      modifies this, db.log
      ensures var inserted := InsertJob(old(Seen()), id, NewJob(account, doc, maxAttempts, now));
              if Fails(db.log.weather, old(db.log.count)) then r == Err(DatabaseError) && Called(false)
              else match inserted
                   case Err(e) => r == Err(e) && Called(e.DatabaseError?)
                   case Ok(jobs) => && r == Ok(NewJob(account, doc, maxAttempts, now)) && Called(false)
                                    && dirty && staged == old(Seen()).(jobs := jobs)
      ensures r.Err? ==> staged == old(staged) && dirty == old(dirty)
    {
      var t := Seen();
      var row := Job(account, doc, Queued, 0, maxAttempts, None, now, Some(now), None, None, None, None);
      var w := db.log.Next();
      if w.Raises? { return Err(DatabaseError); }
      var jobs := InsertJob(t, id, row);
      if jobs.Err? {
        if jobs.error.DatabaseError? { db.log.refused := db.log.refused + 1; }
        return Err(jobs.error);
      }
      staged, dirty := t.(jobs := jobs.value), true;
      r := Ok(row);
    }

    /** The compare-and-swap: `values` is filled column by column, then one UPDATE ... WHERE id AND status. */
    method UpdateStatus(id: Uuid, status: Status, expected: Status, error: Option<string>, now: nat)
      returns (r: Result<Job, SqlError>)
      modifies this, db.log
      ensures var updated := Schema.UpdateStatus(old(Seen()).jobs, id, status, expected, error, now);
              if Fails(db.log.weather, old(db.log.count)) then r == Err(DatabaseError) && Called(false)
              else match updated
                   case Err(e) => r == Err(e) && Called(e.DatabaseError?)
                   case Ok(jobs) => r == Ok(jobs[id]) && Called(false) && dirty && staged == old(Seen()).(jobs := jobs)
      ensures r.Err? ==> staged == old(staged) && dirty == old(dirty)
    {
      var t := Seen();
      var w := db.log.Next();
      if w.Raises? { return Err(DatabaseError); }
      if id !in t.jobs || t.jobs[id].status != expected {
        return Err(StateConflict);
      }
      var values := t.jobs[id].(status := status);
      match status {
        case Queued => values := values.(queuedAt := Some(now));
        case Started => values := values.(startedAt := Some(now));
        case Completed => values := values.(completedAt := Some(now));
        case Failed => values := values.(failedAt := Some(now));
      }
      if status == Started {
        values := values.(lastAttemptAt := Some(now), attempts := t.jobs[id].attempts + 1);
      }
      if error.Some? {
        values := values.(error := error);
      }
      if Clash(t.jobs, id, values) {
        db.log.refused := db.log.refused + 1;
        return Err(DatabaseError);
      }
      staged, dirty := t.(jobs := t.jobs[id := values]), true;
      r := Ok(values);
    }

    method UpsertArtifact(row: Artifact) returns (r: Result<(), SqlError>)
      modifies this, db.log
      ensures var rows := Schema.UpsertArtifact(old(Seen()), row);
              if Fails(db.log.weather, old(db.log.count)) then r == Err(DatabaseError) && Called(false)
              else match rows
                   case Err(e) => r == Err(e) && Called(true)
                   case Ok(rs) => r.Ok? && Called(false) && dirty && staged == old(Seen()).(artifacts := rs)
      ensures r.Err? ==> staged == old(staged) && dirty == old(dirty)
    {
      var t := Seen();
      var w := db.log.Next();
      if w.Raises? { return Err(DatabaseError); }
      var rows := Schema.UpsertArtifact(t, row);
      if rows.Err? {
        db.log.refused := db.log.refused + 1;
        return Err(rows.error);
      }
      staged, dirty := t.(artifacts := rows.value), true;
      r := Ok(());
    }

    /** The commit may succeed, fail, or succeed without the caller learning of it: a caller sees whether the
        outcome is Acknowledged and no more. */
    method Commit() returns (outcome: Protocol.Commit)
      modifies db, db.log
      ensures Called(false) && outcome == CommitBy(db.log.weather, old(db.log.count))
      ensures db.tables == if outcome == Unacknowledged(false) then old(db.tables) else old(Seen())
    {
      var w := db.log.Next();
      outcome := if w.Raises? then Unacknowledged(w.done) else Acknowledged;
      if outcome != Unacknowledged(false) {
        db.tables := Seen();
      }
    }
  }

  class ObjectStore {
    const log: CallLog
    var objects: Objects

    constructor (log: CallLog)
      ensures this.log == log && objects == map[]
    {
      this.log := log;
      objects := map[];
    }

    method ObjectExists(key: string) returns (r: Option<bool>)
      modifies log
      ensures log.count == old(log.count) + 1 && log.refused == old(log.refused)
      ensures r == if Fails(log.weather, old(log.count)) then None else Some(key in objects)
    {
      var w := log.Next();
      r := if w.Raises? then None else Some(key in objects);
    }

    /** The current version; a missing key raises like any other failure. */
    method GetObject(key: string) returns (content: Option<Bytes>)
      modifies log
      ensures log.count == old(log.count) + 1
      ensures var there := key in objects && objects[key] != [];
              && content == (if Fails(log.weather, old(log.count)) || !there then None else Some(objects[key][|objects[key]| - 1]))
              && log.refused == old(log.refused) + if !Fails(log.weather, old(log.count)) && !there then 1 else 0
    {
      var w := log.Next();
      if w.Raises? { return None; }
      if key !in objects || objects[key] == [] {
        log.refused := log.refused + 1;
        return None;
      }
      content := Some(objects[key][|objects[key]| - 1]);
    }

    /** The put may raise although the object was written. */
    method PutObject(key: string, content: Bytes) returns (ok: bool, written: bool)
      modifies this, log
      ensures log.count == old(log.count) + 1 && log.refused == old(log.refused)
      ensures ok == !Fails(log.weather, old(log.count)) && written == (ok || log.weather(old(log.count)).done)
      ensures objects == if written then Put(old(objects), key, content) else old(objects)
    {
      var w := log.Next();
      ok, written := !w.Raises?, !w.Raises? || w.done;
      if written {
        var versions := if key in objects then objects[key] else [];
        objects := objects[key := versions + [content]];
      }
    }
  }

  class DocumentParser {
    const cfg: Config
    const log: CallLog

    constructor (cfg: Config, log: CallLog)
      ensures this.cfg == cfg && this.log == log
    {
      this.cfg := cfg;
      this.log := log;
    }

    method Parse(content: Bytes) returns (markdown: Option<string>)
      modifies log
      ensures log.count == old(log.count) + 1 && log.refused == old(log.refused)
      ensures markdown == if Fails(log.weather, old(log.count)) then None else Some(cfg.parse(content))
    {
      var w := log.Next();
      markdown := if w.Raises? then None else Some(cfg.parse(content));
    }
  }

  class MessageQueue {
    const log: CallLog
    var state: Broker

    constructor (log: CallLog)
      ensures this.log == log && state == Broker(multiset{}, map[])
    {
      this.log := log;
      state := Broker(multiset{}, map[]);
    }

    /** Publishing may raise QueueException or something else, and may raise after the message reached the queue: a
        caller sees the constructor of the outcome and no more. */
    method Enqueue(job: Uuid) returns (send: Send)
      modifies this, log
      ensures log.count == old(log.count) + 1 && log.refused == old(log.refused)
      ensures send == SendBy(log.weather, old(log.count))
      ensures state == if send.Sent? || send.published then Enqueued(old(state), job) else old(state)
    {
      var w := log.Next();
      send := match w
        case Raises(done, translated) => if translated then Refused(done) else Broken(done)
        case _ => Sent;
      if send.Sent? || send.published {
        state := state.(ready := state.ready + multiset{job});
      }
    }

    /** The answer is 0 when the channel was closed under the declaration, whatever the queue holds; a caller cannot
        tell such a misread depth. */
    method Depth() returns (depth: Option<nat>, misread: bool)
      modifies log
      ensures log.count == old(log.count) + 1 && log.refused == old(log.refused)
      ensures misread == log.weather(old(log.count)).Misleads?
      ensures depth == if Fails(log.weather, old(log.count)) then None else Some(if misread then 0 else |state.ready|)
    {
      var w := log.Next();
      misread := w.Misleads?;
      depth := if w.Raises? then None else if misread then Some(0) else Some(|state.ready|);
    }

    method Deliver(w: nat, job: Uuid)
      requires job in state.ready
      modifies this
      ensures state == Broker(old(state).ready - multiset{job}, old(state).unacked[w := job])
    {
      state := Broker(state.ready - multiset{job}, state.unacked[w := job]);
    }

    /** Forgets the consumer's message if it is still its message; otherwise the tag is stale.  An ack that raises
        did not reach the broker. */
    method Ack(w: nat) returns (ok: bool)
      modifies this, log
      ensures log.count == old(log.count) + 1 && log.refused == old(log.refused)
      ensures ok == !Fails(log.weather, old(log.count))
      ensures state == if ok then Acked(old(state), w) else old(state)
    {
      var weather := log.Next();
      ok := !weather.Raises?;
      if ok { state := state.(unacked := state.unacked - {w}); }
    }

    /** Nack with requeue. */
    method Nack(w: nat) returns (ok: bool)
      modifies this, log
      ensures log.count == old(log.count) + 1 && log.refused == old(log.refused)
      ensures ok == !Fails(log.weather, old(log.count))
      ensures state == if ok then Returned(old(state), w) else old(state)
    {
      var weather := log.Next();
      ok := !weather.Raises?;
      if ok { Close(w); }
    }

    /** The consumer's channel closes: its message is ready again. */
    method Close(w: nat)
      modifies this
      ensures state == Returned(old(state), w)
    {
      if w in state.unacked {
        state := Broker(state.ready + multiset{state.unacked[w]}, state.unacked - {w});
      }
    }
  }
}
