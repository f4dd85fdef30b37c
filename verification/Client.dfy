/**
 The executor as the server sees it: the statements it sends for each script, in
 which order, and where it goes after each answer. A connection keeps a transcript of
 what it sent; `Worked` says what such a transcript has got through, `Replay` what it
 has left in the database.
 */
module Client {
  import opened Prelude
  import opened Server

  /** One pending script and the audit rows that go with it. */
  datatype Job = Job(path: string, body: Body, records: seq<Record>)

  datatype Pc = AtBegin | AtRun | AtAssert | AtInsert | AtCommit | AtRollback

  function StmtAt(job: Job, pc: Pc): Stmt {
    match pc
    case AtBegin => Begin
    case AtRun => Run(job.body)
    case AtAssert => AssertOpen
    case AtInsert => Insert(job.records)
    case AtCommit => Commit
    case AtRollback => Rollback
  }

  /** What is left to do, and the statement that comes next; `Stopped` after a rollback. */
  datatype Progress = Progress(todo: seq<Job>, pc: Pc) | Stopped

  /** On, to the rollback, to the next job, or to the end. */
  function Advance(p: Progress, ok: bool): Progress
    requires p.Progress? && p.todo != []
  {
    if p.pc.AtRollback? then Stopped
    else if !ok then p.(pc := AtRollback)
    else
      match p.pc
      case AtBegin => p.(pc := AtRun)
      case AtRun => p.(pc := AtAssert)
      case AtAssert => p.(pc := if p.todo[0].records == [] then AtCommit else AtInsert)
      case AtInsert => p.(pc := AtCommit)
      case AtCommit => Progress(p.todo[1..], AtBegin)
  }

  /** A statement that reached the server, what came of it, and whether the client was told that it succeeded. */
  datatype Request = Request(stmt: Stmt, outcome: Outcome, ok: bool)

  predicate Sends(p: Progress, stmt: Stmt) {
    p.Progress? && p.todo != [] && stmt == StmtAt(p.todo[0], p.pc)
  }

  /** Where the executor is once it has sent `sent`; `None` when it would not have sent that. */
  function Worked(p: Progress, sent: seq<Request>): Option<Progress> {
    if sent == [] then Some(p)
    else
      var n := |sent| - 1;
      match Worked(p, sent[..n])
      case None => None
      case Some(q) => if Sends(q, sent[n].stmt) then Some(Advance(q, sent[n].ok)) else None
  }

  /** What the server has after `sent`; `None` when an answer is not the server's. */
  function Replay(db: Database, tx: Tx, sent: seq<Request>): Option<(Database, Tx)> {
    if sent == [] then Some((db, tx))
    else
      var n := |sent| - 1;
      match Replay(db, tx, sent[..n])
      case None => None
      case Some((d, t)) =>
        var (d', t', reply) := Execute(d, t, sent[n].stmt, sent[n].outcome);
        if sent[n].ok == reply.Succeeded? then Some((d', t')) else None
  }

  lemma {:induction false} ReplayOne(db: Database, tx: Tx, sent: seq<Request>, r: Request)
    ensures Replay(db, tx, sent + [r]) ==
            match Replay(db, tx, sent) {
              case None => None
              case Some((d, t)) =>
                var (d', t', reply) := Execute(d, t, r.stmt, r.outcome);
                if r.ok == reply.Succeeded? then Some((d', t')) else None
            }
  {
  }

  lemma {:induction false} ReplayAppend(db: Database, tx: Tx, xs: seq<Request>, ys: seq<Request>)
    requires Replay(db, tx, xs).Some?
    ensures Replay(db, tx, xs + ys) == Replay(Replay(db, tx, xs).value.0, Replay(db, tx, xs).value.1, ys)
    decreases |ys|
  {
    if ys == [] {
      assert xs + ys == xs;
    } else {
      LastOfAppend(xs, ys);
      ReplayAppend(db, tx, xs, ys[..|ys| - 1]);
    }
  }

  /** What was sent after `before`. */
  function Since(before: seq<Request>, after: seq<Request>): seq<Request> {
    if before <= after then after[|before|..] else []
  }

  /** Nothing but `stmt` was sent. */
  ghost predicate SentOnly(stmt: Stmt, before: seq<Request>, after: seq<Request>) {
    before <= after && forall r :: r in Since(before, after) ==> r.stmt == stmt
  }

  lemma {:induction false} SentOne(before: seq<Request>, more: seq<Request>, stmt: Stmt)
    requires |more| <= 1 && forall r :: r in more ==> r.stmt == stmt
    ensures SentOnly(stmt, before, before + more)
  {
  }

  /** Nothing but these chores was sent, in this order. */
  ghost predicate SentChores(chores: seq<Chore>, before: seq<Request>, after: seq<Request>) {
    && before <= after && |Since(before, after)| == |chores|
    && forall k :: 0 <= k < |chores| ==> Since(before, after)[k].stmt == Housekeeping(chores[k])
  }

  lemma {:induction false} SentChoresOn(a: seq<Request>, b: seq<Request>, c: seq<Request>, first: seq<Chore>, second: seq<Chore>)
    requires SentChores(first, a, b) && SentChores(second, b, c)
    ensures SentChores(first + second, a, c)
  {
    assert Since(a, c) == Since(a, b) + Since(b, c);
  }

  lemma {:induction false} SentChore(before: seq<Request>, more: seq<Request>, chores: seq<Chore>)
    requires |more| == |chores| <= 1 && forall k :: 0 <= k < |chores| ==> more[k].stmt == Housekeeping(chores[k])
    ensures SentChores(chores, before, before + more)
  {
    assert Since(before, before + more) == more;
  }

  /** Nothing but chores. */
  ghost predicate OnlyChores(before: seq<Request>, after: seq<Request>) {
    exists chores :: SentChores(chores, before, after)
  }

  /** Between two states of the transcript the executor has got from `p` to `q`. */
  ghost predicate Moves(p: Progress, before: seq<Request>, after: seq<Request>, q: Progress) {
    before <= after && Worked(p, Since(before, after)) == Some(q)
  }

  lemma {:induction false} MovesNowhere(p: Progress, sent: seq<Request>)
    ensures Moves(p, sent, sent, p)
  {
  }

  lemma {:induction false} MovesOne(p: Progress, before: seq<Request>, after: seq<Request>, q: Progress, r: Request)
    requires Moves(p, before, after, q) && Sends(q, r.stmt)
    ensures Moves(p, before, after + [r], Advance(q, r.ok))
  {
    var all := Since(before, after + [r]);
    assert all == Since(before, after) + [r];
    assert all[..|all| - 1] == Since(before, after);
  }

  lemma {:induction false} WorkedAppend(p: Progress, xs: seq<Request>, ys: seq<Request>)
    requires Worked(p, xs).Some?
    ensures Worked(p, xs + ys) == Worked(Worked(p, xs).value, ys)
    decreases |ys|
  {
    if ys == [] {
      assert xs + ys == xs;
    } else {
      LastOfAppend(xs, ys);
      WorkedAppend(p, xs, ys[..|ys| - 1]);
    }
  }

  lemma {:induction false} MovesOn(p: Progress, a: seq<Request>, b: seq<Request>, q: Progress, c: seq<Request>, t: Progress)
    requires Moves(p, a, b, q) && Moves(q, b, c, t)
    ensures Moves(p, a, c, t)
  {
    assert Since(a, c) == Since(a, b) + Since(b, c);
    WorkedAppend(p, Since(a, b), Since(b, c));
  }

  /** The statements of one job. */
  predicate OfJob(job: Job, stmt: Stmt) {
    match stmt
    case Run(body) => body == job.body
    case Insert(records) => records == job.records
    case _ => true
  }

  /** A transcript that works one job off holds its statements only. */
  lemma {:induction false} OnlyItsStatements(job: Job, sent: seq<Request>)
    requires Worked(Progress([job], AtBegin), sent).Some?
    ensures forall r :: r in sent ==> OfJob(job, r.stmt)
    ensures var q := Worked(Progress([job], AtBegin), sent).value; q.Progress? && q.todo != [] ==> q.todo == [job]
  {
    if sent != [] {
      var n := |sent| - 1;
      OnlyItsStatements(job, sent[..n]);
      assert sent == sent[..n] + [sent[n]];
    }
  }
}
