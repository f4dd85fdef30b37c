/**
 One connection, and the protocol that commits a script and its audit rows in one
 transaction (`apply_in_tx`).

 What each statement comes to is not known in advance: `fate` decides it from the
 step number and the state, and every contract below holds for every `fate`.
 */
module HistoryWrite {
  import opened Prelude
  import opened Server
  import opened Client

  datatype Failure = RollbackFailed(subject: string) | StatementFailed(subject: string)

  /** The connection wrapper: a call that times out costs it the client. */
  class TimingConn {
    var db: Database
    var tx: Tx
    var connected: bool
    var clock: nat
    const fate: (nat, Database, Tx, Stmt) -> Outcome

    /** The database when the connection was made, and everything that reached the server since. */
    ghost const origin: Database
    ghost var sent: seq<Request>
    /** Repository bodies sent to the server so far. */
    ghost var issued: seq<Body>
    /** How many bodies had been sent when a rollback first failed. */
    ghost var poisonedAt: Option<nat>
    /** The objects a body refers to. */
    ghost const needs: string -> set<string>

    constructor (db: Database, fate: (nat, Database, Tx, Stmt) -> Outcome, ghost needs: string -> set<string>)
      ensures this.db == db && this.fate == fate && this.needs == needs
      ensures tx == Closed && connected && issued == [] && poisonedAt == None && sent == [] && Logged()
    {
      this.db, this.fate, this.needs, origin, sent := db, fate, needs, db, [];
      tx, connected, clock := Closed, true, 0;
      issued, poisonedAt := [], None;
    }

    function Answer(stmt: Stmt): (Database, Tx, Reply)
      reads this
    {
      Execute(db, tx, stmt, fate(clock, db, tx, stmt))
    }

    /** The transcript accounts for the state of database and session. */
    ghost predicate Logged()
      reads this
    {
      Replay(origin, Closed, sent) == Some((db, tx))
    }

    /** Every statement succeeds, except a body whose needs the session does not see. */
    ghost predicate Orderly()
      reads this
    {
      forall c, d, t, s ::
        fate(c, d, t, s) == if s.Run? && !(needs(s.body.key) <= Seen(d, t).live.Keys) then Failed(false, false) else Done
    }

    /** No transaction is left over, unless a rollback failed and nothing was sent since. */
    ghost predicate Contained()
      reads this
    {
      Logged() && if poisonedAt.None? then tx.Closed? else poisonedAt.value == |issued|
    }

    method Exec(stmt: Stmt) returns (ok: bool)
      modifies this
      ensures ok == (old(connected) && old(Answer(stmt)).2.Succeeded?)
      ensures old(connected) ==> db == old(Answer(stmt)).0 && tx == old(Answer(stmt)).1
      ensures connected == (old(connected) && !old(Answer(stmt)).2.Lost?)
      ensures !old(connected) ==> db == old(db) && tx == old(tx)
      ensures issued == old(issued) + (if old(connected) && stmt.Run? then [stmt.body] else [])
      ensures poisonedAt == old(poisonedAt)
      ensures sent == old(sent) + (if old(connected) then [Request(stmt, old(fate(clock, db, tx, stmt)), ok)] else [])
      ensures old(Logged()) ==> Logged()
    {
      if !connected {
        return false;
      }
      var (db', tx', reply) := Answer(stmt);
      ghost var bodies := if stmt.Run? then [stmt.body] else [];
      ReplayOne(origin, Closed, sent, Request(stmt, fate(clock, db, tx, stmt), reply.Succeeded?));
      sent := sent + [Request(stmt, fate(clock, db, tx, stmt), reply.Succeeded?)];
      db, tx := db', tx';
      clock := clock + 1;
      issued := issued + bodies;
      if reply.Lost? {
        connected := false;
      }
      ok := reply.Succeeded?;
    }
  }

  class ApplyResult {
    var applied: nat
    var skipped: nat
    var failed: nat
    var errors: seq<Failure>
    var wroteHistory: bool

    constructor ()
      ensures applied == skipped == failed == 0 && errors == [] && !wroteHistory
    {
      applied, skipped, failed, errors, wroteHistory := 0, 0, 0, [], false;
    }

    method PushError(failure: Failure)
      modifies this`failed, this`errors
      ensures failed == old(failed) + 1 && errors == old(errors) + [failure]
    {
      failed := failed + 1;
      errors := errors + [failure];
    }
  }

  /** `failed` counts exactly the recorded errors, and a failed rollback is among them. */
  ghost predicate Accounted(conn: TimingConn, result: ApplyResult)
    reads conn, result
  {
    && result.failed == |result.errors|
    && conn.Contained()
    && (conn.poisonedAt.Some? ==> exists e :: e in result.errors && e.RollbackFailed?)
  }

  /** The errors one failed attempt leaves behind. */
  function Report(subject: string, rollbackFailed: bool): seq<Failure> {
    (if rollbackFailed then [RollbackFailed(subject)] else []) + [StatementFailed(subject)]
  }

  /** The state between two scripts of a run that may go on. */
  ghost predicate Ready(conn: TimingConn, result: ApplyResult)
    reads conn, result
  {
    Accounted(conn, result) && conn.poisonedAt.None? && conn.tx.Closed?
  }

  /** The executor's next statement. */
  method SendNext(conn: TimingConn, ghost p: Progress, stmt: Stmt) returns (ok: bool, ghost q: Progress)
    requires (conn.connected ==> Sends(p, stmt)) && conn.Logged()
    modifies conn
    ensures ok == (old(conn.connected) && old(conn.Answer(stmt)).2.Succeeded?)
    ensures old(conn.connected) ==> conn.db == old(conn.Answer(stmt)).0 && conn.tx == old(conn.Answer(stmt)).1
    ensures conn.connected == (old(conn.connected) && !old(conn.Answer(stmt)).2.Lost?)
    ensures !old(conn.connected) ==> conn.db == old(conn.db) && conn.tx == old(conn.tx)
    ensures conn.issued == old(conn.issued) + (if old(conn.connected) && stmt.Run? then [stmt.body] else [])
    ensures conn.poisonedAt == old(conn.poisonedAt) && conn.Logged()
    ensures Moves(p, old(conn.sent), conn.sent, q) && q == if old(conn.connected) then Advance(p, ok) else p
  {
    ghost var before, was := conn.sent, conn.connected;
    MovesNowhere(p, before);
    ok := conn.Exec(stmt);
    q := p;
    if was {
      MovesOne(p, before, before, p, conn.sent[|before|]);
      q := Advance(p, ok);
    }
  }

  method SendRollback(conn: TimingConn, ghost p: Progress) returns (ok: bool, ghost q: Progress)
    requires conn.Logged() && (conn.connected ==> Sends(p, Rollback))
    modifies conn
    ensures conn.db == old(conn.db) && conn.issued == old(conn.issued) && conn.poisonedAt == old(conn.poisonedAt) && conn.Logged()
    ensures (conn.connected ==> old(conn.connected)) && (ok ==> conn.tx.Closed?)
    ensures old(conn.Orderly() && conn.connected) ==> ok && conn.connected
    ensures Moves(p, old(conn.sent), conn.sent, q) && (conn.connected ==> q == Stopped)
  {
    ok, q := SendNext(conn, p, Rollback);
  }

  method RollBack(conn: TimingConn, result: ApplyResult, subject: string, ghost p: Progress) returns (ghost q: Progress)
    requires conn.poisonedAt.None? && conn.Logged() && (conn.connected ==> Sends(p, Rollback))
    modifies conn, result`failed, result`errors
    ensures Moves(p, old(conn.sent), conn.sent, q) && (conn.connected ==> q == Stopped)
    ensures conn.db == old(conn.db) && conn.issued == old(conn.issued) && (conn.connected ==> old(conn.connected))
    ensures result.errors == old(result.errors) + Report(subject, conn.poisonedAt.Some?)
    ensures result.failed - old(result.failed) == |result.errors| - |old(result.errors)|
    ensures conn.Contained()
    ensures conn.poisonedAt.Some? ==> RollbackFailed(subject) in result.errors
    ensures old(conn.Orderly() && conn.connected) ==> conn.connected && conn.poisonedAt.None?
  {
    var ok;
    ok, q := SendRollback(conn, p);
    if !ok {
      conn.poisonedAt := Some(|conn.issued|);
      result.PushError(RollbackFailed(subject));
    }
    result.PushError(StatementFailed(subject));
  }

  /** What one attempt may have committed, by the way the body treats the transaction. */
  ghost predicate Committed(before: Database, after: Database, body: Body, records: seq<Record>) {
    match body.use
    case LeavesOpen => after == before || after == Recorded(before, body, records)
    case CommitsIt => after == before || after == Install(before, BodyWork(body))
    case _ => after == before
  }

  /** Object records name the object the body defines. */
  predicate OwnRecords(body: Body, records: seq<Record>) {
    forall r :: r in records && r.kind.ObjectRecord? ==> r.key == body.key
  }

  /** The first of `todo` is this script with these rows. */
  ghost predicate Heads(todo: seq<Job>, body: Body, records: seq<Record>) {
    todo != [] && todo[0].body == body && todo[0].records == records
  }

  method BeginTx(conn: TimingConn, ghost todo: seq<Job>) returns (ok: bool, ghost q: Progress)
    requires conn.tx.Closed? && conn.Logged() && todo != []
    modifies conn
    ensures conn.db == old(conn.db) && conn.issued == old(conn.issued) && conn.poisonedAt == old(conn.poisonedAt) && conn.Logged()
    ensures (conn.connected ==> old(conn.connected)) && (ok ==> conn.connected && conn.tx == Open(1, NO_WORK))
    ensures old(conn.Orderly() && conn.connected) ==> ok
    ensures Moves(Progress(todo, AtBegin), old(conn.sent), conn.sent, q)
    ensures conn.connected ==> q == Progress(todo, if ok then AtRun else AtRollback)
  {
    ok, q := SendNext(conn, Progress(todo, AtBegin), Begin);
  }

  method SendBody(conn: TimingConn, body: Body, ghost todo: seq<Job>) returns (ok: bool, ghost q: Progress)
    requires conn.connected && conn.tx == Open(1, NO_WORK) && conn.Logged() && todo != [] && todo[0].body == body
    modifies conn
    ensures conn.issued == old(conn.issued) + [body] && conn.poisonedAt == old(conn.poisonedAt) && conn.Logged()
    ensures conn.db == old(conn.db) || (body.use.CommitsIt? && conn.db == Install(old(conn.db), BodyWork(body)))
    ensures ok ==> conn.connected && (conn.tx.Open? && conn.tx.depth == 1 <==> body.use.LeavesOpen?)
    ensures ok && body.use.LeavesOpen? ==> conn.db == old(conn.db) && conn.tx == Open(1, BodyWork(body))
    ensures old(conn.Orderly()) && body.use.LeavesOpen? ==> conn.connected && ok == (conn.needs(body.key) <= old(conn.db).live.Keys)
    ensures Moves(Progress(todo, AtRun), old(conn.sent), conn.sent, q)
    ensures q == Progress(todo, if ok then AtAssert else AtRollback)
  {
    RunInFreshTx(conn.db, body, conn.fate(conn.clock, conn.db, conn.tx, Run(body)));
    assert Seen(conn.db, conn.tx).live.Keys == conn.db.live.Keys;
    ok, q := SendNext(conn, Progress(todo, AtRun), Run(body));
  }

  method CheckOpen(conn: TimingConn, ghost todo: seq<Job>) returns (ok: bool, ghost q: Progress)
    requires conn.connected && conn.Logged() && todo != []
    modifies conn
    ensures conn.db == old(conn.db) && conn.issued == old(conn.issued) && conn.poisonedAt == old(conn.poisonedAt) && conn.Logged()
    ensures ok ==> conn.connected && conn.tx == old(conn.tx) && conn.tx.Open? && conn.tx.depth == 1
    ensures old(conn.Orderly()) ==> conn.connected && ok == old(conn.tx.Open? && conn.tx.depth == 1)
    ensures Moves(Progress(todo, AtAssert), old(conn.sent), conn.sent, q)
    ensures q == Progress(todo, if !ok then AtRollback else if todo[0].records == [] then AtCommit else AtInsert)
  {
    ok, q := SendNext(conn, Progress(todo, AtAssert), AssertOpen);
  }

  method InsertRows(conn: TimingConn, body: Body, records: seq<Record>, ghost todo: seq<Job>) returns (ok: bool, ghost q: Progress)
    requires conn.connected && conn.tx == Open(1, BodyWork(body)) && conn.Logged() && Heads(todo, body, records)
    modifies conn
    ensures conn.db == old(conn.db) && conn.issued == old(conn.issued) && conn.poisonedAt == old(conn.poisonedAt) && conn.Logged()
    ensures ok ==> conn.connected && conn.tx == Open(1, FullWork(conn.db, body, records))
    ensures old(conn.Orderly()) && OwnRecords(body, records) ==> ok
    ensures Moves(Progress(todo, AtInsert), old(conn.sent), conn.sent, q)
    ensures q == Progress(todo, if ok then AtCommit else AtRollback)
  {
    InsertAfterBody(conn.db, body, records, conn.fate(conn.clock, conn.db, conn.tx, Insert(records)));
    ok, q := SendNext(conn, Progress(todo, AtInsert), Insert(records));
  }

  method CommitTx(conn: TimingConn, body: Body, records: seq<Record>, ghost todo: seq<Job>) returns (ok: bool, ghost q: Progress)
    requires conn.connected && conn.tx == Open(1, FullWork(conn.db, body, records)) && conn.Logged() && Heads(todo, body, records)
    modifies conn
    ensures conn.issued == old(conn.issued) && conn.poisonedAt == old(conn.poisonedAt) && conn.Logged()
    ensures conn.db == old(conn.db) || conn.db == Recorded(old(conn.db), body, records)
    ensures ok ==> conn.db == Recorded(old(conn.db), body, records) && conn.tx.Closed? && conn.connected
    ensures old(conn.Orderly()) ==> ok
    ensures Moves(Progress(todo, AtCommit), old(conn.sent), conn.sent, q)
    ensures q == if ok then Progress(todo[1..], AtBegin) else Progress(todo, AtRollback)
  {
    RowsFollow(conn.db, body, records);
    ok, q := SendNext(conn, Progress(todo, AtCommit), Commit);
  }

  /** BEGIN, the body, and the assertion that the body left exactly our transaction open. */
  method RunBody(conn: TimingConn, body: Body, ghost todo: seq<Job>) returns (ok: bool, ghost q: Progress)
    requires conn.tx.Closed? && conn.Logged() && todo != [] && todo[0].body == body
    modifies conn
    ensures conn.poisonedAt == old(conn.poisonedAt) && (conn.connected ==> old(conn.connected)) && conn.Logged()
    ensures ok ==> body.use.LeavesOpen? && conn.db == old(conn.db) && conn.tx == Open(1, BodyWork(body)) && conn.connected
    ensures conn.db == old(conn.db) || (body.use.CommitsIt? && conn.db == Install(old(conn.db), BodyWork(body)))
    ensures conn.issued == old(conn.issued) || conn.issued == old(conn.issued) + [body]
    ensures conn.issued == old(conn.issued) ==> !ok && conn.db == old(conn.db)
    ensures old(conn.Orderly() && conn.connected) && body.use.LeavesOpen? ==>
              conn.connected && ok == (conn.needs(body.key) <= old(conn.db).live.Keys)
    ensures Moves(Progress(todo, AtBegin), old(conn.sent), conn.sent, q)
    ensures conn.connected ==> q == Progress(todo, if !ok then AtRollback else if todo[0].records == [] then AtCommit else AtInsert)
  {
    ok, q := BeginTx(conn, todo);
    if !ok {
      return;
    }
    ghost var sent, p := conn.sent, q;
    ok, q := SendBody(conn, body, todo);
    MovesOn(Progress(todo, AtBegin), old(conn.sent), sent, p, conn.sent, q);
    if !ok {
      return;
    }
    sent, p := conn.sent, q;
    ok, q := CheckOpen(conn, todo);
    MovesOn(Progress(todo, AtBegin), old(conn.sent), sent, p, conn.sent, q);
  }

  /** The audit rows, if any, and COMMIT, once the body has left our transaction open. */
  method RecordBody(conn: TimingConn, body: Body, records: seq<Record>, ghost todo: seq<Job>) returns (ok: bool, ghost q: Progress)
    requires conn.tx == Open(1, BodyWork(body)) && conn.Logged() && conn.connected && Heads(todo, body, records)
    modifies conn
    ensures conn.poisonedAt == old(conn.poisonedAt) && conn.issued == old(conn.issued) && conn.Logged()
    ensures conn.db == old(conn.db) || conn.db == Recorded(old(conn.db), body, records)
    ensures ok ==> conn.db == Recorded(old(conn.db), body, records) && conn.tx.Closed? && conn.connected
    ensures old(conn.Orderly()) && OwnRecords(body, records) ==> ok && conn.connected
    ensures Moves(Progress(todo, if records == [] then AtCommit else AtInsert), old(conn.sent), conn.sent, q)
    ensures conn.connected ==> q == if ok then Progress(todo[1..], AtBegin) else Progress(todo, AtRollback)
  {
    if records == [] {
      InsertAfterBody(conn.db, body, records, Done);
      ok, q := CommitTx(conn, body, records, todo);
      return;
    }
    ok, q := InsertRows(conn, body, records, todo);
    if !ok {
      return;
    }
    ghost var sent, p := conn.sent, q;
    ok, q := CommitTx(conn, body, records, todo);
    MovesOn(Progress(todo, AtInsert), old(conn.sent), sent, p, conn.sent, q);
  }

  /** The body, its audit rows and COMMIT; stops at the first statement that fails. */
  method RunInTx(conn: TimingConn, body: Body, records: seq<Record>, ghost todo: seq<Job>) returns (ok: bool, ghost q: Progress)
    requires conn.tx.Closed? && conn.Logged() && Heads(todo, body, records)
    modifies conn
    ensures conn.poisonedAt == old(conn.poisonedAt) && (conn.connected ==> old(conn.connected)) && conn.Logged()
    ensures Committed(old(conn.db), conn.db, body, records)
    ensures ok ==> body.use.LeavesOpen? && conn.db == Recorded(old(conn.db), body, records) && conn.tx.Closed? && conn.connected
    ensures conn.issued == old(conn.issued) || conn.issued == old(conn.issued) + [body]
    ensures conn.issued == old(conn.issued) ==> conn.db == old(conn.db)
    ensures old(conn.Orderly() && conn.connected) && body.use.LeavesOpen? && OwnRecords(body, records) ==>
              && conn.connected
              && ok == (conn.needs(body.key) <= old(conn.db).live.Keys)
              && (!ok ==> conn.db == old(conn.db))
    ensures Moves(Progress(todo, AtBegin), old(conn.sent), conn.sent, q)
    ensures conn.connected ==> q == if ok then Progress(todo[1..], AtBegin) else Progress(todo, AtRollback)
  {
    ok, q := RunBody(conn, body, todo);
    if !ok {
      return;
    }
    ghost var sent, p := conn.sent, q;
    ok, q := RecordBody(conn, body, records, todo);
    MovesOn(Progress(todo, AtBegin), old(conn.sent), sent, p, conn.sent, q);
  }

  method ApplyInTx(conn: TimingConn, body: Body, records: seq<Record>, result: ApplyResult, subject: string, ghost todo: seq<Job>)
    returns (ok: bool, ghost q: Progress)
    requires Ready(conn, result) && Heads(todo, body, records)
    modifies conn, result`failed, result`errors, result`wroteHistory
    ensures Accounted(conn, result)
    ensures Committed(old(conn.db), conn.db, body, records)
    ensures ok ==> body.use.LeavesOpen? && conn.db == Recorded(old(conn.db), body, records)
    ensures ok ==> conn.tx.Closed? && conn.connected && conn.poisonedAt.None?
    ensures ok ==> result.errors == old(result.errors) && result.wroteHistory
    ensures !ok ==> result.wroteHistory == old(result.wroteHistory)
    ensures !ok ==> result.errors == old(result.errors) + Report(subject, conn.poisonedAt.Some?)
    ensures conn.issued == old(conn.issued) || conn.issued == old(conn.issued) + [body]
    ensures conn.issued == old(conn.issued) ==> conn.db == old(conn.db)
    ensures old(conn.Orderly() && conn.connected) && body.use.LeavesOpen? && OwnRecords(body, records) ==>
              && conn.connected
              && conn.poisonedAt.None?
              && ok == (conn.needs(body.key) <= old(conn.db).live.Keys)
              && (!ok ==> conn.db == old(conn.db))
    ensures Moves(Progress(todo, AtBegin), old(conn.sent), conn.sent, q)
    ensures conn.connected ==> q == if ok then Progress(todo[1..], AtBegin) else Stopped
  {
    ok, q := RunInTx(conn, body, records, todo);
    if !ok {
      ghost var sent, p := conn.sent, q;
      q := RollBack(conn, result, subject, p);
      MovesOn(Progress(todo, AtBegin), old(conn.sent), sent, p, conn.sent, q);
      return;
    }
    result.wroteHistory := true;
  }

  method InsertAudit(conn: TimingConn, records: seq<Record>) returns (ok: bool)
    requires conn.tx.Closed? && conn.Logged()
    modifies conn
    ensures conn.tx.Closed? && conn.issued == old(conn.issued) && conn.poisonedAt == old(conn.poisonedAt) && conn.Logged()
    ensures conn.db == old(conn.db) || conn.db == Audited(old(conn.db), records)
    ensures ok ==> conn.db == Audited(old(conn.db), records)
    ensures ok ==> forall r :: r in records && r.kind.ObjectRecord? ==> r.key in conn.db.live
    ensures old(conn.Orderly() && conn.connected) ==>
              conn.connected && ok == forall r :: r in records && r.kind.ObjectRecord? ==> r.key in old(conn.db).live
    ensures SentOnly(Insert(records), old(conn.sent), conn.sent)
  {
    assert conn.db.live + map[] == conn.db.live && conn.db.executed + [] == conn.db.executed;
    ok := conn.Exec(Insert(records));
    SentOne(old(conn.sent), conn.sent[|old(conn.sent)|..], Insert(records));
  }

  /** Audit rows with no script, for adoption, in one autocommitted statement. */
  method CommitHistory(conn: TimingConn, records: seq<Record>, result: ApplyResult) returns (ok: bool)
    requires Ready(conn, result)
    modifies conn, result`failed, result`errors, result`wroteHistory
    ensures Accounted(conn, result) && conn.poisonedAt.None? && conn.tx.Closed? && conn.issued == old(conn.issued)
    ensures conn.db == old(conn.db) || conn.db == Audited(old(conn.db), records)
    ensures ok ==> conn.db == Audited(old(conn.db), records) && result.errors == old(result.errors)
    ensures ok ==> forall r :: r in records && r.kind.ObjectRecord? ==> r.key in conn.db.live
    ensures !ok ==> result.errors == old(result.errors) + [StatementFailed("history write")]
    ensures result.wroteHistory == (old(result.wroteHistory) || (ok && records != []))
    ensures old(conn.Orderly() && conn.connected) ==>
              conn.connected && ok == forall r :: r in records && r.kind.ObjectRecord? ==> r.key in old(conn.db).live
    ensures SentOnly(Insert(records), old(conn.sent), conn.sent)
  {
    if records == [] {
      assert CaptureAll(conn.db, records) == [] && conn.db == Audited(conn.db, records);
      return true;
    }
    ok := InsertAudit(conn, records);
    if ok {
      result.wroteHistory := true;
    } else {
      result.PushError(StatementFailed("history write"));
    }
  }

  /**
   The guarantee read off `Committed`: the effects of a body that leaves the
   transaction open are committed if and only if its audit rows are, and a body
   that closes or nests the transaction never gets an audit row.
   */
  lemma {:induction false} CommittedTogether(before: Database, after: Database, body: Body, records: seq<Record>)
    requires Committed(before, after, body, records) && records != []
    ensures body.use.LeavesOpen? ==> (after.history != before.history <==> after == Recorded(before, body, records))
    ensures body.use.LeavesOpen? ==> (after.history == before.history <==> after == before)
    ensures !body.use.LeavesOpen? ==> after.history == before.history
    ensures after.executed != before.executed && body.use.LeavesOpen? ==>
              after.history == before.history + CaptureAll(Install(before, BodyWork(body)), records)
  {
    BodyAddsNoRows(before, body);
    var rows := CaptureAll(Install(before, BodyWork(body)), records);
    assert |before.history + rows| > |before.history|;
  }

  lemma {:induction false} BodyAddsNoRows(db: Database, body: Body)
    ensures Install(db, BodyWork(body)).history == db.history
  {
  }
}
