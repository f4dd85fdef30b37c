/**
 What SQL Server does with the statements the migrator sends, as far as the
 audit history, the live objects and the executor's transaction are concerned.

 A statement either takes effect in the session's open transaction, as a
 `Delta` nobody else sees, or commits at once when no transaction is open.
 */
module Server {
  import opened Prelude

  /** A managed object as the catalog shows it: a fingerprint of its definition and its parent's name. */
  datatype LiveObject = LiveObject(definition: nat, parent: Option<string>)

  datatype RecordKind = ObjectRecord | MigrationRecord

  datatype RecordEvent = Applied | Adopted

  /** One audit record as the client sends it. */
  datatype Record = Record(key: string, kind: RecordKind, digest: nat, event: RecordEvent)

  /** The checksum column: 64 hex digits, a blank, or text that decodes to nothing. */
  datatype StoredChecksum = Hex(digest: nat) | Blank | Garbled

  /** One committed audit row; `live` is the definition captured when it was inserted. */
  datatype Row = Row(key: string, kind: RecordKind, checksum: StoredChecksum, event: RecordEvent, live: Option<nat>)

  /** `executed` lists, in commit order, the transition scripts whose effects are committed. */
  datatype Database = Database(live: map<string, LiveObject>, history: seq<Row>, executed: seq<string>)

  /** Uncommitted work of one session. */
  datatype Delta = Delta(live: map<string, LiveObject>, rows: seq<Row>, executed: seq<string>)

  const NO_WORK := Delta(map[], [], [])

  datatype Tx = Closed | Open(depth: nat, work: Delta)

  /**
   How a script body treats the transaction it runs in. `CommitsIt` is any body
   whose work is committed when it ends: by its own COMMIT, or because it rolls
   back first and its later statements commit one by one. `RollsItBack` leaves
   nothing behind.
   */
  datatype TxUse = LeavesOpen | CommitsIt | RollsItBack | OpensAnother

  /** A script body: it (re)defines one object; `script` names it when it is a transition script. */
  datatype Body = Body(key: string, becomes: LiveObject, script: Option<string>, use: TxUse)

  datatype Chore = BootstrapTables | BootstrapDrift | HistoryIndex | SchemaDdl(sql: string) | DropCatalogCache

  datatype Stmt =
    | Begin
    | Run(body: Body)
    | AssertOpen
    | Insert(records: seq<Record>)
    | Commit
    | Rollback
    /** Idempotent work outside the modelled state. */
    | Housekeeping(chore: Chore)

  function Install(db: Database, work: Delta): Database {
    Database(db.live + work.live, db.history + work.rows, db.executed + work.executed)
  }

  function Join(first: Delta, second: Delta): Delta {
    Delta(first.live + second.live, first.rows + second.rows, first.executed + second.executed)
  }

  /** The database as the session itself sees it. */
  function Seen(db: Database, tx: Tx): Database {
    if tx.Open? then Install(db, tx.work) else db
  }

  function BodyWork(body: Body): Delta {
    Delta(map[body.key := body.becomes], [], if body.script.Some? then [body.script.value] else [])
  }

  /** The insert captures the definition the object has at that moment. */
  function Capture(seen: Database, r: Record): Row {
    Row(r.key, r.kind, Hex(r.digest), r.event,
        if r.key in seen.live then Some(seen.live[r.key].definition) else None)
  }

  function CaptureAll(seen: Database, records: seq<Record>): (rows: seq<Row>)
    ensures |rows| == |records|
    ensures forall i :: 0 <= i < |rows| ==> rows[i] == Capture(seen, records[i])
  {
    if records == [] then [] else [Capture(seen, records[0])] + CaptureAll(seen, records[1..])
  }

  /** `work` becomes part of the open transaction, or commits by itself. */
  function Perform(db: Database, tx: Tx, work: Delta): (Database, Tx) {
    match tx
    case Closed => (Install(db, work), Closed)
    case Open(depth, pending) => (db, Open(depth, Join(pending, work)))
  }

  function CommitOnce(db: Database, tx: Tx): (Database, Tx) {
    match tx
    case Closed => (db, Closed)
    case Open(depth, work) => if depth > 1 then (db, Open(depth - 1, work)) else (Install(db, work), Closed)
  }

  /** The full effect of a statement that succeeds. */
  function Do(db: Database, tx: Tx, stmt: Stmt): (Database, Tx) {
    match stmt
    case Begin => (db, if tx.Open? then Open(tx.depth + 1, tx.work) else Open(1, NO_WORK))
    case Run(body) =>
      var (db', tx') := Perform(db, tx, BodyWork(body));
      match body.use {
        case LeavesOpen => (db', tx')
        case CommitsIt => CommitOnce(db', tx')
        case RollsItBack => (db', Closed)
        case OpensAnother => (db', if tx'.Open? then Open(tx'.depth + 1, tx'.work) else Open(1, NO_WORK))
      }
    case AssertOpen => (db, tx)
    case Insert(records) => Perform(db, tx, Delta(map[], CaptureAll(Seen(db, tx), records), []))
    case Commit => CommitOnce(db, tx)
    case Rollback => (db, Closed)
    case Housekeeping(_) => (db, tx)
  }

  /**
   The assertion throws unless exactly one transaction is open; the insert throws
   when an object record's live state cannot be captured; a commit needs a transaction.
   */
  predicate CanSucceed(db: Database, tx: Tx, stmt: Stmt) {
    match stmt
    case AssertOpen => tx.Open? && tx.depth == 1
    case Insert(records) => forall r :: r in records && r.kind.ObjectRecord? ==> r.key in Seen(db, tx).live
    case Commit => tx.Open?
    case _ => true
  }

  /**
   How a statement may end: done; an error, with or without its effect, the server
   aborting the transaction or not; or no answer in time, which costs the connection.
   */
  datatype Outcome = Done | Failed(effect: bool, aborted: bool) | TimedOut(effect: bool)

  datatype Reply = Succeeded | Refused | Lost

  /** Result of executing `stmt` when `outcome` is what happens to it. */
  function Execute(db: Database, tx: Tx, stmt: Stmt, outcome: Outcome): (Database, Tx, Reply) {
    var (db', tx') := if CanSucceed(db, tx, stmt) then Do(db, tx, stmt) else (db, tx);
    match outcome
    case Done => (db', tx', if CanSucceed(db, tx, stmt) then Succeeded else Refused)
    case Failed(effect, aborted) =>
      var (db1, tx1) := if effect then (db', tx') else (db, tx);
      (db1, if aborted then Closed else tx1, Refused)
    case TimedOut(effect) => (if effect then db' else db, Closed, Lost)
  }

  /** The database once audit rows for `records` alone are committed. */
  function Audited(db: Database, records: seq<Record>): Database {
    db.(history := db.history + CaptureAll(db, records))
  }

  /** The database once `body` and the audit rows for `records` are committed together. */
  function Recorded(db: Database, body: Body, records: seq<Record>): Database {
    var ran := Install(db, BodyWork(body));
    Database(ran.live, ran.history + CaptureAll(ran, records), ran.executed)
  }

  lemma {:induction false} RunInFreshTx(db: Database, body: Body, o: Outcome)
    ensures var (db', tx', reply) := Execute(db, Open(1, NO_WORK), Run(body), o);
            && (db' == db || (body.use.CommitsIt? && db' == Install(db, BodyWork(body))))
            && (reply.Succeeded? ==> (tx'.Open? && tx'.depth == 1 <==> body.use.LeavesOpen?))
            && (reply.Succeeded? && body.use.LeavesOpen? ==> db' == db && tx' == Open(1, BodyWork(body)))
  {
    assert Join(NO_WORK, BodyWork(body)) == BodyWork(body) by {
      assert map[] + BodyWork(body).live == BodyWork(body).live;
    }
  }

  lemma {:induction false} JoinRows(work: Delta, rows: seq<Row>)
    requires work.rows == []
    ensures Join(work, Delta(map[], rows, [])) == work.(rows := rows)
  {
    assert work.live + map[] == work.live && work.executed + [] == work.executed && [] + rows == rows;
  }

  lemma {:induction false} InsertAfterBody(db: Database, body: Body, records: seq<Record>, o: Outcome)
    ensures var (db', tx', reply) := Execute(db, Open(1, BodyWork(body)), Insert(records), o);
            db' == db && (reply.Succeeded? ==> tx' == Open(1, FullWork(db, body, records)))
    ensures records == [] ==> FullWork(db, body, records) == BodyWork(body)
    ensures Install(db, FullWork(db, body, records)) == Recorded(db, body, records)
  {
    JoinRows(BodyWork(body), CaptureAll(Install(db, BodyWork(body)), records));
    RowsFollow(db, body, records);
  }

  lemma {:induction false} RowsFollow(db: Database, body: Body, records: seq<Record>)
    ensures Install(db, FullWork(db, body, records)) == Recorded(db, body, records)
  {
    assert db.history + [] == db.history;
  }

  /** The work of one script together with its audit rows. */
  function FullWork(db: Database, body: Body, records: seq<Record>): Delta {
    BodyWork(body).(rows := CaptureAll(Install(db, BodyWork(body)), records))
  }
}
