/**
 The executor refines the protocol: what `ApplyRun.Migrate` sends, in any outcome of
 any statement, is a run of the protocol's events, in the state of any number of
 migrators. So what the protocol keeps, every execution keeps.
 */
module Refinement {
  import opened Prelude
  import opened Server
  import opened Client
  import opened HistoryWrite
  import opened Units
  import opened Transitions
  import opened Filter
  import opened Protocol
  import opened ProtocolLink
  import Execution = Execute
  import ApplyRun
  import Planner
  import PlanDb
  import Convergence

  /** To the server a client that stops listening is one whose request failed. */
  function Softened(o: Outcome): Outcome {
    match o
    case TimedOut(effect) => Failed(effect, true)
    case _ => o
  }

  lemma {:induction false} SoftenedSame(db: Database, tx: Tx, stmt: Stmt, o: Outcome)
    ensures var (a, t, x) := Execute(db, tx, stmt, o);
            var (b, u, y) := Execute(db, tx, stmt, Softened(o));
            a == b && t == u && x.Succeeded? == y.Succeeded?
  {
  }

  datatype Mode = Scripts | ObjectScripts | House

  function EventOf(mode: Mode, i: nat, r: Request): Event {
    match mode
    case Scripts => Exec(i, Softened(r.outcome))
    case ObjectScripts => ObjectStmt(i, r.stmt, Softened(r.outcome))
    case House => Housekeep(i, if r.stmt.Housekeeping? then r.stmt.chore else DropCatalogCache, Softened(r.outcome))
  }

  function EventsOf(mode: Mode, i: nat, sent: seq<Request>): (events: seq<Event>)
    ensures |events| == |sent| && forall k :: 0 <= k < |sent| ==> events[k] == EventOf(mode, i, sent[k])
  {
    seq(|sent|, k requires 0 <= k < |sent| => EventOf(mode, i, sent[k]))
  }

  /** Migrator `i` is in this phase, with this transaction, on this database. */
  ghost predicate At(s: State, i: nat, db: Database, tx: Tx, phase: Phase) {
    i < |s.ms| && s.db == db && s.ms[i] == Migrator(phase, tx, true, false)
  }

  /** Nothing but migrator `i` and the database has changed. */
  ghost predicate OnlyMoved(s: State, t: State, i: nat) {
    |t.ms| == |s.ms| && t.holder == s.holder && forall j :: 0 <= j < |s.ms| && j != i ==> t.ms[j] == s.ms[j]
  }

  /** Playing `events` takes migrator `i` there and moves nobody else. */
  ghost predicate Takes(s: State, i: nat, events: seq<Event>, db: Database, tx: Tx, phase: Phase) {
    At(Play(s, events), i, db, tx, phase) && OnlyMoved(s, Play(s, events), i)
  }

  lemma {:induction false} TakesOn(s: State, i: nat, xs: seq<Event>, a: Database, t: Tx, p: Phase, ys: seq<Event>, b: Database, u: Tx, q: Phase)
    requires Takes(s, i, xs, a, t, p) && Takes(Play(s, xs), i, ys, b, u, q)
    ensures Takes(s, i, xs + ys, b, u, q)
  {
    PlayAppend(s, xs, ys);
  }

  function PhaseOf(q: Progress, seen: seq<Row>, own: seq<Row>): Phase {
    match q
    case Progress(todo, pc) => Working(todo, pc, seen, own)
    case Stopped => Releasing(seen, own)
  }

  lemma {:induction false} OneScriptEvent(s: State, i: nat, db: Database, tx: Tx, q: Progress, seen: seq<Row>, own: seq<Row>, r: Request)
    returns (own': seq<Row>)
    requires At(s, i, db, tx, PhaseOf(q, seen, own)) && Sends(q, r.stmt) && r.ok == Execute(db, tx, r.stmt, r.outcome).2.Succeeded?
    ensures var t := Next(s, EventOf(Scripts, i, r));
            var (db', tx', _) := Execute(db, tx, r.stmt, r.outcome);
            At(t, i, db', tx', PhaseOf(Advance(q, r.ok), seen, own')) && OnlyMoved(s, t, i)
  {
    SoftenedSame(db, tx, r.stmt, r.outcome);
    own' := own + Added(db, Execute(db, tx, r.stmt, r.outcome).0);
  }

  lemma {:induction false} PlayOne(s: State, events: seq<Event>, e: Event)
    ensures Play(s, events + [e]) == Next(Play(s, events), e)
  {
  }

  lemma {:induction false} EventsOneMore(mode: Mode, i: nat, sent: seq<Request>)
    requires sent != []
    ensures var n := |sent| - 1; EventsOf(mode, i, sent) == EventsOf(mode, i, sent[..n]) + [EventOf(mode, i, sent[n])]
  {
  }

  /** Working the transitions off. */
  lemma {:induction false} ScriptsPlay(s: State, i: nat, db: Database, tx: Tx, p: Progress, seen: seq<Row>, own: seq<Row>, sent: seq<Request>)
    returns (own': seq<Row>)
    requires At(s, i, db, tx, PhaseOf(p, seen, own)) && Worked(p, sent).Some? && Replay(db, tx, sent).Some?
    ensures var (db', tx') := Replay(db, tx, sent).value;
            Takes(s, i, EventsOf(Scripts, i, sent), db', tx', PhaseOf(Worked(p, sent).value, seen, own'))
  {
    own' := own;
    if sent != [] {
      var n := |sent| - 1;
      own' := ScriptsPlay(s, i, db, tx, p, seen, own, sent[..n]);
      EventsOneMore(Scripts, i, sent);
      PlayOne(s, EventsOf(Scripts, i, sent[..n]), EventOf(Scripts, i, sent[n]));
      var (d, t) := Replay(db, tx, sent[..n]).value;
      own' := OneScriptEvent(Play(s, EventsOf(Scripts, i, sent[..n])), i, d, t, Worked(p, sent[..n]).value, seen, own', sent[n]);
    }
  }

  lemma {:induction false} OneObjectEvent(s: State, i: nat, db: Database, tx: Tx, seen: seq<Row>, own: seq<Row>, r: Request) returns (own': seq<Row>)
    requires At(s, i, db, tx, ObjectPhase(seen, own))
    ensures var t := Next(s, EventOf(ObjectScripts, i, r));
            var (db', tx', _) := Execute(db, tx, r.stmt, r.outcome);
            At(t, i, db', tx', ObjectPhase(seen, own')) && OnlyMoved(s, t, i)
  {
    SoftenedSame(db, tx, r.stmt, r.outcome);
    own' := own + Added(db, Execute(db, tx, r.stmt, r.outcome).0);
  }

  lemma {:induction false} OneHouseEvent(s: State, i: nat, db: Database, tx: Tx, phase: Phase, r: Request)
    requires At(s, i, db, tx, phase) && BetweenScripts(phase) && r.stmt.Housekeeping?
    ensures var t := Next(s, EventOf(House, i, r));
            var (db', tx', _) := Execute(db, tx, r.stmt, r.outcome);
            At(t, i, db', tx', phase) && OnlyMoved(s, t, i) && db' == db && (tx.Closed? ==> tx'.Closed?)
  {
    SoftenedSame(db, tx, r.stmt, r.outcome);
  }

  /** The object phase may send any statement. */
  lemma {:induction false} ObjectsPlay(s: State, i: nat, db: Database, tx: Tx, seen: seq<Row>, own: seq<Row>, sent: seq<Request>)
    returns (own': seq<Row>)
    requires At(s, i, db, tx, ObjectPhase(seen, own)) && Replay(db, tx, sent).Some?
    ensures var (db', tx') := Replay(db, tx, sent).value;
            Takes(s, i, EventsOf(ObjectScripts, i, sent), db', tx', ObjectPhase(seen, own'))
  {
    own' := own;
    if sent != [] {
      var n := |sent| - 1;
      own' := ObjectsPlay(s, i, db, tx, seen, own, sent[..n]);
      EventsOneMore(ObjectScripts, i, sent);
      PlayOne(s, EventsOf(ObjectScripts, i, sent[..n]), EventOf(ObjectScripts, i, sent[n]));
      var (d, t) := Replay(db, tx, sent[..n]).value;
      own' := OneObjectEvent(Play(s, EventsOf(ObjectScripts, i, sent[..n])), i, d, t, seen, own', sent[n]);
    }
  }

  /** Housekeeping between scripts changes no phase. */
  lemma {:induction false} HousePlays(s: State, i: nat, db: Database, tx: Tx, phase: Phase, sent: seq<Request>)
    requires At(s, i, db, tx, phase) && BetweenScripts(phase) && Replay(db, tx, sent).Some?
    requires forall r :: r in sent ==> r.stmt.Housekeeping?
    ensures var (db', tx') := Replay(db, tx, sent).value;
            Takes(s, i, EventsOf(House, i, sent), db', tx', phase) && db' == db && (tx.Closed? ==> tx'.Closed?)
  {
    if sent != [] {
      var n := |sent| - 1;
      HousePlays(s, i, db, tx, phase, sent[..n]);
      EventsOneMore(House, i, sent);
      PlayOne(s, EventsOf(House, i, sent[..n]), EventOf(House, i, sent[n]));
      var (d, t) := Replay(db, tx, sent[..n]).value;
      OneHouseEvent(Play(s, EventsOf(House, i, sent[..n])), i, d, t, phase, sent[n]);
    }
  }

  // ---- A whole execution ----

  lemma {:induction false} ReplayPrefix(db: Database, tx: Tx, xs: seq<Request>, ys: seq<Request>)
    requires Replay(db, tx, xs + ys).Some?
    ensures Replay(db, tx, xs).Some?
    ensures var (d, t) := Replay(db, tx, xs).value; Replay(d, t, ys) == Replay(db, tx, xs + ys)
    decreases |ys|
  {
    if ys == [] {
      assert xs + ys == xs;
    } else {
      LastOfAppend(xs, ys);
      ReplayPrefix(db, tx, xs, ys[..|ys| - 1]);
    }
  }

  /** What was sent up to `b` replays, and the rest replays from there. */
  lemma {:induction false} ReplaySplit(db: Database, tx: Tx, a: seq<Request>, b: seq<Request>, c: seq<Request>)
    requires a <= b <= c && Replay(db, tx, Since(a, c)).Some?
    ensures Replay(db, tx, Since(a, b)).Some?
    ensures var (d, t) := Replay(db, tx, Since(a, b)).value; Replay(d, t, Since(b, c)) == Replay(db, tx, Since(a, c))
  {
    assert Since(a, c) == Since(a, b) + Since(b, c);
    ReplayPrefix(db, tx, Since(a, b), Since(b, c));
  }

  ghost predicate AllProper(lists: set<seq<string>>, events: seq<Event>) {
    forall e :: e in events ==> Proper(lists, e)
  }

  lemma {:induction false} ObjectEventsProper(lists: set<seq<string>>, repo: Repository, i: nat, before: seq<Request>, after: seq<Request>)
    requires Agreed(lists, repo) && ObjectWork(repo, before, after)
    ensures AllProper(lists, EventsOf(ObjectScripts, i, Since(before, after)))
  {
    var sent := Since(before, after);
    forall e | e in EventsOf(ObjectScripts, i, sent)
      ensures Proper(lists, e)
    {
      var k :| 0 <= k < |sent| && e == EventOf(ObjectScripts, i, sent[k]);
      assert sent[k] in sent;
      ObjectRequestsAreProper(lists, repo, sent[k].stmt);
    }
  }

  /** Up to the last transition. */
  lemma {:induction false} OpeningPlays(s: State, i: nat, p: Progress, before: seq<Request>, ready: seq<Request>, moved: seq<Request>, q: Progress,
                                        db: Database, seen: seq<Row>, own: seq<Row>)
    returns (events: seq<Event>, own': seq<Row>)
    requires At(s, i, db, Closed, PhaseOf(p, seen, own)) && p.Progress? && p.pc.AtBegin?
    requires OnlyChores(before, ready) && Moves(p, ready, moved, q) && Replay(db, Closed, Since(before, moved)).Some?
    ensures var (db', tx') := Replay(db, Closed, Since(before, moved)).value; Takes(s, i, events, db', tx', PhaseOf(q, seen, own'))
    ensures forall lists :: AllProper(lists, events)
  {
    var house, scripts := EventsOf(House, i, Since(before, ready)), EventsOf(Scripts, i, Since(ready, moved));
    ReplaySplit(db, Closed, before, ready, moved);
    HousePlays(s, i, db, Closed, PhaseOf(p, seen, own), Since(before, ready));
    own' := ScriptsPlay(Play(s, house), i, db, Closed, p, seen, own, Since(ready, moved));
    var (db', tx') := Replay(db, Closed, Since(before, moved)).value;
    TakesOn(s, i, house, db, Closed, PhaseOf(p, seen, own), scripts, db', tx', PhaseOf(q, seen, own'));
    events := house + scripts;
  }

  /** The objects, once all transitions are done. */
  lemma {:induction false} ObjectStagePlays(lists: set<seq<string>>, s: State, i: nat, repo: Repository, moved: seq<Request>, applied: seq<Request>,
                                            db: Database, tx: Tx, seen: seq<Row>, own: seq<Row>)
    returns (events: seq<Event>, own': seq<Row>)
    requires At(s, i, db, tx, Working([], AtBegin, seen, own)) && Agreed(lists, repo)
    requires ObjectWork(repo, moved, applied) && Replay(db, tx, Since(moved, applied)).Some?
    ensures var (db', tx') := Replay(db, tx, Since(moved, applied)).value; Takes(s, i, events, db', tx', ObjectPhase(seen, own'))
    ensures AllProper(lists, events)
  {
    var start, scripts := [StartObjects(i)], EventsOf(ObjectScripts, i, Since(moved, applied));
    PlayOne(s, [], StartObjects(i));
    assert [] + start == start;
    assert Takes(s, i, start, db, tx, ObjectPhase(seen, own));
    own' := ObjectsPlay(Play(s, start), i, db, tx, seen, own, Since(moved, applied));
    var (db', tx') := Replay(db, tx, Since(moved, applied)).value;
    TakesOn(s, i, start, db, tx, ObjectPhase(seen, own), scripts, db', tx', ObjectPhase(seen, own'));
    ObjectEventsProper(lists, repo, i, moved, applied);
    events := start + scripts;
  }

  predicate ActsOnPlan(phase: Phase) {
    phase.Working? || phase.ObjectPhase? || phase.Releasing?
  }

  /** The objects, if it came to them, and the housekeeping at the end. */
  lemma {:induction false} ClosingPlays(lists: set<seq<string>>, s: State, i: nat, repo: Repository, moved: seq<Request>, at: Progress,
                                        applied: seq<Request>, after: seq<Request>, db: Database, tx: Tx, seen: seq<Row>, own: seq<Row>)
    returns (events: seq<Event>, phase: Phase)
    requires At(s, i, db, tx, PhaseOf(at, seen, own)) && Agreed(lists, repo) && Replay(db, tx, Since(moved, after)).Some?
    requires ObjectWork(repo, moved, applied) && (applied != moved ==> at == Progress([], AtBegin))
    requires OnlyChores(applied, after) && (after != applied ==> AtRest(at))
    ensures var (db', tx') := Replay(db, tx, Since(moved, after)).value; Takes(s, i, events, db', tx', phase)
    ensures AllProper(lists, events) && ActsOnPlan(phase)
  {
    ReplaySplit(db, tx, moved, applied, after);
    var (d, u) := Replay(db, tx, Since(moved, applied)).value;
    events, phase := [], PhaseOf(at, seen, own);
    if applied != moved {
      var own';
      events, own' := ObjectStagePlays(lists, s, i, repo, moved, applied, db, tx, seen, own);
      phase := ObjectPhase(seen, own');
    }
    if after != applied {
      var house := EventsOf(House, i, Since(applied, after));
      HousePlays(Play(s, events), i, d, u, phase, Since(applied, after));
      var (db', tx') := Replay(db, tx, Since(moved, after)).value;
      TakesOn(s, i, events, d, u, phase, house, db', tx', phase);
      events := events + house;
    }
  }

  /** Every execution of a plan, in whatever state of the other migrators, is a run of the protocol. */
  lemma {:induction false} ExecutionPlays(lists: set<seq<string>>, s: State, i: nat, repo: Repository, objects: seq<PlannedObject>,
                                          before: seq<Request>, after: seq<Request>, t: Execution.Stages, db: Database, seen: seq<Row>, own: seq<Row>)
    returns (events: seq<Event>, phase: Phase)
    requires At(s, i, db, Closed, Working(Jobs(repo, Steps(objects)), AtBegin, seen, own)) && Agreed(lists, repo)
    requires Execution.Transcribes(repo, objects, before, after, t) && Replay(db, Closed, Since(before, after)).Some?
    ensures var (db', tx') := Replay(db, Closed, Since(before, after)).value; Takes(s, i, events, db', tx', phase)
    ensures AllProper(lists, events) && ActsOnPlan(phase)
  {
    ReplaySplit(db, Closed, before, t.moved, after);
    var (d, u) := Replay(db, Closed, Since(before, t.moved)).value;
    var opening, own' := OpeningPlays(s, i, Progress(Jobs(repo, Steps(objects)), AtBegin), before, t.ready, t.moved, t.at, db, seen, own);
    var closing;
    closing, phase := ClosingPlays(lists, Play(s, opening), i, repo, t.moved, t.at, t.applied, after, d, u, seen, own');
    var (db', tx') := Replay(db, Closed, Since(before, after)).value;
    TakesOn(s, i, opening, d, u, PhaseOf(t.at, seen, own'), closing, db', tx', phase);
    assert AllProper(lists, opening);
    events := opening + closing;
  }

  // ---- A whole migrate ----

  /** No transition script on disk commits the executor's transaction. */
  ghost predicate Tame(repo: Repository) {
    forall path :: path in repo.disk && repo.disk[path].body.script.Some? ==> !repo.disk[path].body.use.CommitsIt?
  }

  /** The repository the layout was scanned from, as the protocol assumes it. */
  ghost predicate Scanned(repo: Repository, layout: Planner.Layout) {
    FromLayout(repo, layout) && DisjointLists(repo) && NoRepeats(repo) && ApplyRun.OwnsBodies(repo, layout) && Tame(repo)
  }

  lemma {:induction false} PlannedFromRows(repo: Repository, layout: Planner.Layout, rows: seq<Planner.Row>)
    requires Scanned(repo, layout) && |rows| == |layout.objects|
    ensures WellPlanned(repo, Materialized(layout, rows, Planner.PathTable(layout, rows)))
  {
    var os := Materialized(layout, rows, Planner.PathTable(layout, rows));
    forall o | o in os
      ensures OwnBodies(repo, o)
    {
      var i :| 0 <= i < |os| && os[i] == o;
      assert ApplyRun.OwnsRow(repo, layout, i);
    }
    RowsAreWellPlanned(repo, layout, rows);
  }

  lemma {:induction false} TameJobs(repo: Repository, objects: seq<PlannedObject>)
    requires WellPlanned(repo, objects) && Tame(repo)
    ensures forall job :: job in Jobs(repo, Steps(objects)) ==> !job.body.use.CommitsIt?
  {
    var steps := Steps(objects);
    forall job | job in Jobs(repo, steps)
      ensures !job.body.use.CommitsIt?
    {
      var a :| 0 <= a < |steps| && job == Jobs(repo, steps)[a];
      StepOf(repo, objects, a);
    }
  }

  /** Planning and filtering under the lock. */
  lemma {:induction false} PlanningPlays(s: State, i: nat, db: Database, jobs: seq<Job>)
    requires At(s, i, db, Closed, Planning)
    ensures Takes(s, i, [MakePlan(i, jobs, true), FilterPlan(i, true)], db, Closed, Working(Unfinished(jobs, db.history), AtBegin, db.history, []))
  {
    var first := [MakePlan(i, jobs, true)];
    PlayOne(s, [], MakePlan(i, jobs, true));
    assert [] + first == first;
    PlayOne(s, first, FilterPlan(i, true));
    assert first + [FilterPlan(i, true)] == [MakePlan(i, jobs, true), FilterPlan(i, true)];
  }

  /**
   A migrator that holds the lock, among any others: whatever its statements come to,
   everything it does is a run of proper events, at the end of which the protocol's
   database and session are the connection's.
   */
  lemma {:induction false} MigratePlays(lists: set<seq<string>>, s: State, i: nat, repo: Repository, layout: Planner.Layout,
                                        before: seq<Request>, after: seq<Request>, run: ApplyRun.Execution, db: Database)
    returns (events: seq<Event>, phase: Phase)
    requires At(s, i, db, Closed, Planning) && Consistent(db, lists) && Agreed(lists, repo) && Lists(repo) <= lists && Scanned(repo, layout)
    requires ApplyRun.Executed(repo, layout, db.history, before, after, run) && Replay(db, Closed, Since(before, after)).Some?
    ensures var (db', tx') := Replay(db, Closed, Since(before, after)).value; Takes(s, i, events, db', tx', phase)
    ensures AllProper(lists, events) && ActsOnPlan(phase)
  {
    var planned := Materialized(layout, run.rows, Planner.PathTable(layout, run.rows));
    var objects := Materialized(layout, run.rows, run.pending);
    var jobs := Jobs(repo, Steps(planned));
    var opening := [MakePlan(i, jobs, true), FilterPlan(i, true)];
    PlannedFromRows(repo, layout, run.rows);
    TameJobs(repo, planned);
    PlansAreProper(lists, repo, planned);
    PlanFilterIsProtocolFilter(repo, layout, run.rows, Planner.PathTable(layout, run.rows), db.history, run.pending);
    PlanningPlays(s, i, db, jobs);
    var rest;
    rest, phase := ExecutionPlays(lists, Play(s, opening), i, repo, objects, before, after, run.stages, db, db.history, []);
    var (db', tx') := Replay(db, Closed, Since(before, after)).value;
    TakesOn(s, i, opening, db, Closed, Working(Unfinished(jobs, db.history), AtBegin, db.history, []), rest, db', tx', phase);
    events := opening + rest;
  }

  /** One migrator alone, about to plan. */
  lemma {:induction false} AloneKeeps(db: Database, lists: set<seq<string>>, events: seq<Event>)
    requires Consistent(db, lists) && AllProper(lists, events)
    ensures Consistent(Play(State(db, Some(0), [Migrator(Planning, Closed, true, false)]), events).db, lists)
  {
    PlayKeeps(State(db, Some(0), [Migrator(Planning, Closed, true, false)]), lists, events);
  }

  /** What the connection has sent since `before` accounts for what it has changed. */
  lemma {:induction false} LoggedSince(origin: Database, before: seq<Request>, after: seq<Request>, db: Database, tx: Tx)
    requires before <= after && Replay(origin, Closed, before) == Some((db, tx)) && Replay(origin, Closed, after).Some?
    ensures Replay(db, tx, Since(before, after)) == Replay(origin, Closed, after)
  {
    assert before + Since(before, after) == after;
    ReplayAppend(origin, Closed, before, Since(before, after));
  }

  lemma {:induction false} ExecutedGrows(repo: Repository, layout: Planner.Layout, history: seq<Row>, before: seq<Request>, after: seq<Request>, run: ApplyRun.Execution)
    requires ApplyRun.Executed(repo, layout, history, before, after, run)
    ensures before <= after
  {
  }

  /**
   Safety of the migrate itself, whatever fails and wherever it stops: no transition
   is committed twice, none without its row, and every table is applied in order.
   */
  method MigrateSafely(lock: ApplyRun.AppLock, lockCode: int, released: bool, conn: TimingConn, phase: PlanDb.PlanPhase, cfg: PlanDb.Config, ws: Planner.Workspace, repo: Repository,
                       current: map<string, nat>, allowAdopt: bool, historyLoads: bool, ghost lists: set<seq<string>>)
    returns (ending: ApplyRun.RunEnding)
    requires conn.Contained() && conn.poisonedAt.None? && phase.Valid() && phase.db == conn.db && ws.Cleared() && !lock.held
    requires Convergence.ProperLayout(ws.layout) && Scanned(repo, ws.layout) && Agreed(lists, repo) && Lists(repo) <= lists
    requires Consistent(conn.db, lists)
    modifies lock, conn, phase, ws
    ensures conn.Contained() && Consistent(conn.db, lists)
    ensures lockCode < 0 ==> ending.NotLocked? && conn.db == old(conn.db) && conn.sent == old(conn.sent)
  {
    ghost var db, before := conn.db, conn.sent;
    ghost var schemas, c, run;
    ending, schemas, c, run := ApplyRun.Migrate(lock, lockCode, released, conn, phase, cfg, ws, repo, current, allowAdopt, historyLoads);
    if ending.Ran? {
      ghost var s := State(db, Some(0), [Migrator(Planning, Closed, true, false)]);
      ExecutedGrows(repo, ws.layout, db.history, before, conn.sent, run);
      LoggedSince(conn.origin, before, conn.sent, db, Closed);
      ghost var events, last := MigratePlays(lists, s, 0, repo, ws.layout, before, conn.sent, run, db);
      AloneKeeps(db, lists, events);
    }
  }
}
