/** Table transitions: every pending script of every changed table, in order, stopping at the first failure. */
module Transitions {
  import opened Prelude
  import opened Domain
  import opened Server
  import opened Client
  import opened HistoryWrite
  import opened Units

  predicate Pending(o: PlannedObject) {
    o.action.ReprocessChanged? && o.transitions != []
  }

  /** The scripts to run, in run order, as (object, position) pairs. */
  function Steps(objects: seq<PlannedObject>): (steps: seq<(PlannedObject, nat)>)
    ensures forall s :: s in steps ==> s.1 < |s.0.transitions|
  {
    if objects == [] then []
    else Steps(objects[..|objects| - 1]) + StepsOf(objects[|objects| - 1])
  }

  function StepsOf(o: PlannedObject): (steps: seq<(PlannedObject, nat)>)
    ensures |steps| == if Pending(o) then |o.transitions| else 0
    ensures forall i :: 0 <= i < |steps| ==> steps[i] == (o, i)
  {
    if Pending(o) then seq(|o.transitions|, i requires 0 <= i < |o.transitions| => (o, i)) else []
  }

  /**
   The job of a step. A script that cannot be read fails before anything is sent, so
   any body may stand in its place.
   */
  function JobOf(repo: Repository, o: PlannedObject, i: nat): Job
    requires i < |o.transitions|
  {
    var path := o.transitions[i];
    var body := VerifiedBody(repo, path, o.digest).GetOr(Body(o.key, LiveObject(0, None), Some(path), LeavesOpen));
    Job(path, body, TransitionRecords(repo, o, i))
  }

  function Jobs(repo: Repository, steps: seq<(PlannedObject, nat)>): (jobs: seq<Job>)
    requires forall s :: s in steps ==> s.1 < |s.0.transitions|
    ensures |jobs| == |steps| && forall a :: 0 <= a < |jobs| ==> jobs[a] == JobOf(repo, steps[a].0, steps[a].1)
  {
    seq(|steps|, a requires 0 <= a < |steps| => JobOf(repo, steps[a].0, steps[a].1))
  }

  lemma {:induction false} JobsAppend(repo: Repository, xs: seq<(PlannedObject, nat)>, ys: seq<(PlannedObject, nat)>)
    requires forall s :: s in xs || s in ys ==> s.1 < |s.0.transitions|
    ensures (forall s :: s in xs + ys ==> s.1 < |s.0.transitions|) && Jobs(repo, xs + ys) == Jobs(repo, xs) + Jobs(repo, ys)
  {
  }

  /** No script is under way. */
  predicate AtRest(q: Progress) {
    q.Stopped? || q.pc.AtBegin?
  }

  ghost predicate Readable(repo: Repository, s: (PlannedObject, nat)) {
    s.1 < |s.0.transitions| && VerifiedBody(repo, s.0.transitions[s.1], s.0.digest).Some?
  }

  /** `us` are the units of the first `|us|` steps. */
  ghost predicate UnitsOfSteps(repo: Repository, steps: seq<(PlannedObject, nat)>, us: seq<Unit>) {
    && |us| <= |steps|
    && forall i :: 0 <= i < |us| ==> Readable(repo, steps[i]) && us[i] == TransitionUnit(repo, steps[i].0, steps[i].1)
  }

  /** Only files that are still what the scan saw are ever committed, each as the body of its own step. */
  lemma {:induction false} CommittedUnedited(repo: Repository, steps: seq<(PlannedObject, nat)>, us: seq<Unit>, k: nat)
    requires UnitsOfSteps(repo, steps, us) && k < |us|
    ensures var (o, i) := steps[k]; var path := o.transitions[i];
            && path in repo.disk && us[k].body == repo.disk[path].body && path in repo.scripts
            && repo.disk[path].digest == (if repo.scripts[path].Some? then repo.scripts[path].value else o.digest)
  {
  }

  /** The script of `s` committed the transaction itself: its effects stay, without audit rows. */
  ghost predicate Bare(repo: Repository, s: (PlannedObject, nat), before: Database, after: Database) {
    && Readable(repo, s)
    && var body := TransitionUnit(repo, s.0, s.1).body;
       body.use.CommitsIt? && after == Install(before, BodyWork(body))
  }

  /**
   What a run, complete or not, leaves committed: the first units in order and at
   most the bare effects of one more body.
   */
  ghost predicate Leaves(repo: Repository, steps: seq<(PlannedObject, nat)>, us: seq<Unit>, before: Database, after: Database) {
    && UnitsOfSteps(repo, steps, us)
    && (after == ApplyUnits(before, us)
        || (|us| < |steps| && Bare(repo, steps[|us|], ApplyUnits(before, us), after)))
  }

  lemma {:induction false} StepsAppend(repo: Repository, xs: seq<(PlannedObject, nat)>, us: seq<Unit>, ys: seq<(PlannedObject, nat)>, vs: seq<Unit>,
                                       all: seq<(PlannedObject, nat)>)
    requires UnitsOfSteps(repo, xs, us) && |us| == |xs| && UnitsOfSteps(repo, ys, vs) && xs + ys <= all
    ensures UnitsOfSteps(repo, all, us + vs)
  {
    PrefixParts(xs, ys, all);
    forall i | 0 <= i < |us + vs|
      ensures Readable(repo, all[i]) && (us + vs)[i] == TransitionUnit(repo, all[i].0, all[i].1)
    {
      if i >= |us| {
        var k := i - |us|;
        assert all[|xs| + k] == ys[k] && (us + vs)[i] == vs[k];
      }
    }
  }

  /** A finished run of `xs`, followed by a run of `ys` that may have stopped. */
  lemma {:induction false} LeavesAppend(repo: Repository, xs: seq<(PlannedObject, nat)>, us: seq<Unit>, ys: seq<(PlannedObject, nat)>, vs: seq<Unit>,
                     all: seq<(PlannedObject, nat)>, before: Database, middle: Database, after: Database)
    requires UnitsOfSteps(repo, xs, us) && |us| == |xs| && middle == ApplyUnits(before, us)
    requires Leaves(repo, ys, vs, middle, after)
    requires xs + ys <= all
    ensures Leaves(repo, all, us + vs, before, after)
    ensures after == ApplyUnits(middle, vs) ==> after == ApplyUnits(before, us + vs)
  {
    ApplyAppend(before, us, vs);
    PrefixParts(xs, ys, all);
    StepsAppend(repo, xs, us, ys, vs, all);
    if after != ApplyUnits(middle, vs) {
      assert all[|us + vs|] == ys[|vs|];
      assert Bare(repo, all[|us + vs|], ApplyUnits(before, us + vs), after);
    }
  }

  lemma {:induction false} StepsGrow(objects: seq<PlannedObject>, k: nat)
    requires k <= |objects|
    ensures Steps(objects[..k]) <= Steps(objects)
    decreases |objects|
  {
    if k < |objects| {
      var shorter := objects[..|objects| - 1];
      StepsGrow(shorter, k);
      assert shorter[..k] == objects[..k];
    } else {
      assert objects[..k] == objects;
    }
  }

  lemma {:induction false} StepMembers(objects: seq<PlannedObject>)
    ensures forall s :: s in Steps(objects) ==> s.0 in objects && Pending(s.0)
  {
    if objects != [] {
      StepMembers(objects[..|objects| - 1]);
    }
  }

  lemma {:induction false} StepsOneMore(objects: seq<PlannedObject>, j: nat)
    requires j < |objects|
    ensures Steps(objects[..j + 1]) == Steps(objects[..j]) + StepsOf(objects[j])
    ensures Steps(objects[..j + 1]) <= Steps(objects)
    ensures !Pending(objects[j]) ==> Steps(objects[..j + 1]) == Steps(objects[..j])
  {
    assert objects[..j + 1][..j] == objects[..j];
    StepsGrow(objects, j + 1);
  }

  /** The file of step `i` is unchanged since the scan and leaves the transaction open. */
  ghost predicate StepSound(repo: Repository, o: PlannedObject, i: int)
    requires 0 <= i < |o.transitions|
  {
    Readable(repo, (o, i)) && TransitionUnit(repo, o, i).body.use.LeavesOpen?
  }

  /** On an orderly server the table's transitions go through: all sound, and the table finds its needs. */
  ghost predicate TableOk(repo: Repository, o: PlannedObject, needs: string -> set<string>, live: set<string>) {
    Pending(o) ==> needs(o.key) <= live && forall i :: 0 <= i < |o.transitions| ==> StepSound(repo, o, i)
  }

  /** On an orderly server: the first `i` steps of the table have gone through. */
  ghost predicate Stepped(repo: Repository, o: PlannedObject, i: nat, needs: string -> set<string>, base: set<string>, live: set<string>) {
    && i <= |o.transitions| && (forall j :: 0 <= j < i ==> StepSound(repo, o, j))
    && (i > 0 ==> needs(o.key) <= base) && live == base + if i > 0 then {o.key} else {}
  }

  lemma {:induction false} SteppedOne(repo: Repository, o: PlannedObject, i: nat, needs: string -> set<string>, base: set<string>,
                                      live: set<string>, live': set<string>, ok: bool)
    requires Pending(o) && i < |o.transitions| && Stepped(repo, o, i, needs, base, live)
    requires ok <==> StepSound(repo, o, i) && needs(o.key) <= live
    requires ok ==> live' == live + {o.key}
    ensures if ok then Stepped(repo, o, i + 1, needs, base, live') else !TableOk(repo, o, needs, base)
  {
  }

  function PendingKeys(objects: seq<PlannedObject>): set<string> {
    set o | o in objects && Pending(o) :: o.key
  }

  ghost predicate TableOkAt(repo: Repository, objects: seq<PlannedObject>, needs: string -> set<string>, base: set<string>, j: int)
    requires 0 <= j < |objects|
  {
    TableOk(repo, objects[j], needs, base + PendingKeys(objects[..j]))
  }

  /** All tables' transitions go through, one table after the other. */
  ghost predicate TablesOk(repo: Repository, objects: seq<PlannedObject>, needs: string -> set<string>, base: set<string>) {
    forall j :: 0 <= j < |objects| ==> TableOkAt(repo, objects, needs, base, j)
  }

  /** On an orderly server: the first `j` objects are done. */
  ghost predicate Healthy(calm: bool, repo: Repository, objects: seq<PlannedObject>, j: nat, needs: string -> set<string>,
                          base: set<string>, live: set<string>, connected: bool) {
    calm ==> && connected && j <= |objects| && (forall k :: 0 <= k < j ==> TableOkAt(repo, objects, needs, base, k))
             && live == base + PendingKeys(objects[..j])
  }

  lemma {:induction false} HealthyOne(calm: bool, repo: Repository, objects: seq<PlannedObject>, j: nat, needs: string -> set<string>,
                                      base: set<string>, live: set<string>, live': set<string>, ok: bool, connected: bool)
    requires j < |objects| && Healthy(calm, repo, objects, j, needs, base, live, true)
    requires calm ==> (ok <==> TableOk(repo, objects[j], needs, live))
    requires calm && ok ==> connected && live' == live + if Pending(objects[j]) then {objects[j].key} else {}
    ensures ok ==> Healthy(calm, repo, objects, j + 1, needs, base, live', connected)
    ensures calm && !ok ==> !TablesOk(repo, objects, needs, base)
  {
    TakeOneMore(objects, j);
    assert PendingKeys(objects[..j + 1]) == PendingKeys(objects[..j]) + if Pending(objects[j]) then {objects[j].key} else {};
    if calm {
      assert ok <==> TableOkAt(repo, objects, needs, base, j);
    }
  }

  method ApplyOneTransition(conn: TimingConn, repo: Repository, o: PlannedObject, i: nat, result: ApplyResult, ghost todo: seq<Job>)
    returns (ghost committed: bool, ghost q: Progress)
    requires i < |o.transitions| && OwnBodies(repo, o) && todo != [] && todo[0] == JobOf(repo, o, i)
    requires Ready(conn, result)
    modifies conn, result
    ensures Accounted(conn, result) && result.failed >= old(result.failed)
    ensures result.failed == old(result.failed) ==>
              Readable(repo, (o, i)) && committed && conn.tx.Closed? && conn.poisonedAt.None?
    ensures committed ==> Readable(repo, (o, i)) && conn.db == ApplyUnit(old(conn.db), TransitionUnit(repo, o, i))
    ensures !committed ==> conn.db == old(conn.db) || Bare(repo, (o, i), old(conn.db), conn.db)
    ensures result.applied == old(result.applied) + if result.failed == old(result.failed) then 1 else 0
    ensures result.skipped == old(result.skipped)
    ensures Moves(Progress(todo, AtBegin), old(conn.sent), conn.sent, q) && (conn.connected ==> AtRest(q))
    ensures result.failed == old(result.failed) ==> q == Progress(todo[1..], AtBegin)
    ensures old(conn.Orderly() && conn.connected) ==>
              && (result.failed == old(result.failed) <==> StepSound(repo, o, i) && conn.needs(o.key) <= old(conn.db).live.Keys)
              && (result.failed == old(result.failed) ==> conn.connected && conn.db.live.Keys == old(conn.db).live.Keys + {o.key})
  {
    var path := o.transitions[i];
    var body := VerifiedBody(repo, path, o.digest);
    if body.None? {
      result.PushError(StatementFailed(path));
      MovesNowhere(Progress(todo, AtBegin), conn.sent);
      return false, Progress(todo, AtBegin);
    }
    var records := TransitionRecords(repo, o, i);
    assert path in o.transitions && OwnRecords(body.value, records);
    ghost var before := conn.db;
    var ok;
    ok, q := ApplyInTx(conn, body.value, records, result, path, todo);
    if ok {
      result.applied := result.applied + 1;
    }
    committed := body.value.use.LeavesOpen? && conn.db == Recorded(before, body.value, records);
  }

  method ApplyTable(conn: TimingConn, repo: Repository, o: PlannedObject, result: ApplyResult, ghost rest: seq<Job>)
    returns (ghost us: seq<Unit>, ghost q: Progress)
    requires Ready(conn, result) && result.failed == 0
    requires OwnBodies(repo, o) && Pending(o)
    modifies conn, result
    ensures Accounted(conn, result)
    ensures Leaves(repo, StepsOf(o), us, old(conn.db), conn.db)
    ensures result.failed == 0 ==> |us| == |o.transitions| && conn.db == ApplyUnits(old(conn.db), us)
    ensures result.failed == 0 ==> conn.tx.Closed? && conn.poisonedAt.None?
    ensures result.failed == 0 ==> result.applied == old(result.applied) + |us|
    ensures result.applied - old(result.applied) <= |us|
    ensures result.skipped == old(result.skipped)
    ensures Moves(Progress(Jobs(repo, StepsOf(o)) + rest, AtBegin), old(conn.sent), conn.sent, q) && (conn.connected ==> AtRest(q))
    ensures result.failed == 0 ==> q == Progress(rest, AtBegin)
    ensures old(conn.Orderly() && conn.connected) ==>
              && (result.failed == 0 <==> TableOk(repo, o, conn.needs, old(conn.db).live.Keys))
              && (result.failed == 0 ==> conn.connected && conn.db.live.Keys == old(conn.db).live.Keys + {o.key})
  {
    ghost var calm, todo := conn.Orderly() && conn.connected, Jobs(repo, StepsOf(o)) + rest;
    us, q := ApplySteps(conn, repo, o, result, todo, rest, calm);
    if result.failed == 0 {
      TableEnds(repo, o, todo, rest, us, old(conn.db), conn.db, old(conn.sent), conn.sent, q, calm, conn.needs, conn.connected);
    }
  }

  /** Step after step, up to the first failure. */
  method ApplySteps(conn: TimingConn, repo: Repository, o: PlannedObject, result: ApplyResult, ghost todo: seq<Job>, ghost rest: seq<Job>, ghost calm: bool)
    returns (ghost us: seq<Unit>, ghost q: Progress)
    requires Ready(conn, result) && result.failed == 0 && (calm ==> conn.Orderly() && conn.connected)
    requires OwnBodies(repo, o) && Pending(o) && todo == Jobs(repo, StepsOf(o)) + rest
    modifies conn, result
    ensures Accounted(conn, result) && result.skipped == old(result.skipped) && (conn.connected ==> AtRest(q))
    ensures result.applied - old(result.applied) <= |us|
    ensures result.failed == 0 ==> Ready(conn, result) && result.applied == old(result.applied) + |o.transitions|
    ensures OnTable(result.failed == 0, repo, o, todo, |o.transitions|, us, old(conn.db), conn.db, old(conn.sent), conn.sent, q, calm, conn.needs, conn.connected)
  {
    us, q := [], Progress(todo, AtBegin);
    TableSetsOut(repo, o, todo, conn.db, conn.sent, calm, conn.needs, conn.connected);
    var i := 0;
    while i < |o.transitions|
      invariant 0 <= i <= |o.transitions| && result.failed == 0 && Ready(conn, result) && (calm ==> conn.Orderly()) && AtRest(q)
      invariant result.applied == old(result.applied) + i && i <= |us| && result.skipped == old(result.skipped)
      invariant OnTable(true, repo, o, todo, i, us, old(conn.db), conn.db, old(conn.sent), conn.sent, q, calm, conn.needs, conn.connected)
    {
      us, q := TryStep(conn, repo, o, i, result, todo, rest, us, q, old(conn.db), old(conn.sent), calm);
      if result.failed > 0 {
        return;
      }
      i := i + 1;
    }
  }

  lemma {:induction false} TableSetsOut(repo: Repository, o: PlannedObject, todo: seq<Job>, db: Database, sent: seq<Request>, calm: bool,
                                        needs: string -> set<string>, connected: bool)
    requires calm ==> connected
    ensures OnTable(true, repo, o, todo, 0, [], db, db, sent, sent, Progress(todo, AtBegin), calm, needs, connected)
  {
    MovesNowhere(Progress(todo, AtBegin), sent);
  }

  lemma {:induction false} TableEnds(repo: Repository, o: PlannedObject, todo: seq<Job>, rest: seq<Job>, us: seq<Unit>, before: Database, after: Database,
                                     sent0: seq<Request>, sent: seq<Request>, q: Progress, calm: bool, needs: string -> set<string>, connected: bool)
    requires Pending(o) && todo == Jobs(repo, StepsOf(o)) + rest
    requires OnTable(true, repo, o, todo, |o.transitions|, us, before, after, sent0, sent, q, calm, needs, connected)
    ensures Leaves(repo, StepsOf(o), us, before, after) && |us| == |o.transitions| && after == ApplyUnits(before, us)
    ensures q == Progress(rest, AtBegin) && Moves(Progress(todo, AtBegin), sent0, sent, q)
    ensures calm ==> connected && TableOk(repo, o, needs, before.live.Keys) && after.live.Keys == before.live.Keys + {o.key}
  {
    assert todo[|o.transitions|..] == rest;
  }

  /** Where a table's run stands: before step `i`, or stopped for good. */
  ghost predicate OnTable(ok: bool, repo: Repository, o: PlannedObject, todo: seq<Job>, i: nat, us: seq<Unit>, before: Database, after: Database,
                          sent0: seq<Request>, sent: seq<Request>, q: Progress, calm: bool, needs: string -> set<string>, connected: bool) {
    if ok then
      && AtStep(repo, o, todo, i, us, before, after, sent0, sent, q)
      && (calm ==> connected && Stepped(repo, o, i, needs, before.live.Keys, after.live.Keys))
    else
      && Leaves(repo, StepsOf(o), us, before, after) && Moves(Progress(todo, AtBegin), sent0, sent, q)
      && (calm ==> !TableOk(repo, o, needs, before.live.Keys))
  }

  method TryStep(conn: TimingConn, repo: Repository, o: PlannedObject, i: nat, result: ApplyResult, ghost todo: seq<Job>, ghost rest: seq<Job>,
                 ghost done: seq<Unit>, ghost p: Progress, ghost db0: Database, ghost sent0: seq<Request>, ghost calm: bool)
    returns (ghost us: seq<Unit>, ghost q: Progress)
    requires OwnBodies(repo, o) && Pending(o) && i < |o.transitions| && todo == Jobs(repo, StepsOf(o)) + rest
    requires Ready(conn, result) && result.failed == 0 && (calm ==> conn.Orderly())
    requires OnTable(true, repo, o, todo, i, done, db0, conn.db, sent0, conn.sent, p, calm, conn.needs, conn.connected)
    modifies conn, result
    ensures Accounted(conn, result) && result.skipped == old(result.skipped) && (conn.connected ==> AtRest(q))
    ensures result.applied == old(result.applied) + if result.failed == 0 then 1 else 0
    ensures |us| >= |done| + (if result.failed == 0 then 1 else 0) && (result.failed == 0 ==> Ready(conn, result) && AtRest(q))
    ensures OnTable(result.failed == 0, repo, o, todo, i + 1, us, db0, conn.db, sent0, conn.sent, q, calm, conn.needs, conn.connected)
  {
    NextJob(repo, o, todo, rest, i);
    ghost var committed, db, sent := false, conn.db, conn.sent;
    committed, q := ApplyOneTransition(conn, repo, o, i, result, todo[i..]);
    StepTried(repo, o, todo, i, done, db0, db, sent0, sent, p, committed, conn.db, conn.sent, q);
    if calm {
      SteppedOne(repo, o, i, conn.needs, db0.live.Keys, db.live.Keys, conn.db.live.Keys, result.failed == 0);
    }
    us := if committed then done + [TransitionUnit(repo, o, i)] else done;
  }

  /** Before step `i` of a table. */
  ghost predicate AtStep(repo: Repository, o: PlannedObject, todo: seq<Job>, i: nat, us: seq<Unit>, before: Database, after: Database,
                         sent0: seq<Request>, sent: seq<Request>, q: Progress) {
    && i <= |todo| && InTable(repo, o, i, us, before, after)
    && q == Progress(todo[i..], AtBegin) && Moves(Progress(todo, AtBegin), sent0, sent, q)
  }

  lemma {:induction false} StepTried(repo: Repository, o: PlannedObject, todo: seq<Job>, i: nat, us: seq<Unit>, before: Database, middle: Database,
                                     sent0: seq<Request>, sent: seq<Request>, p: Progress, committed: bool, after: Database, sent': seq<Request>, q: Progress)
    requires Pending(o) && i < |o.transitions| && i < |todo| && AtStep(repo, o, todo, i, us, before, middle, sent0, sent, p)
    requires Moves(p, sent, sent', q)
    requires if committed then Readable(repo, (o, i)) && after == ApplyUnit(middle, TransitionUnit(repo, o, i))
             else after == middle || Bare(repo, (o, i), middle, after)
    ensures Moves(Progress(todo, AtBegin), sent0, sent', q)
    ensures Leaves(repo, StepsOf(o), if committed then us + [TransitionUnit(repo, o, i)] else us, before, after)
    ensures committed && q == Progress(todo[i + 1..], AtBegin) ==>
              AtStep(repo, o, todo, i + 1, us + [TransitionUnit(repo, o, i)], before, after, sent0, sent', q)
  {
    MovesOn(Progress(todo, AtBegin), sent0, sent, p, sent', q);
    if committed {
      StepTaken(repo, o, i, us, before, middle, after);
    } else {
      StepMissed(repo, o, i, us, before, middle, after);
    }
  }

  /** The first `i` transitions of the table are committed. */
  ghost predicate InTable(repo: Repository, o: PlannedObject, i: nat, us: seq<Unit>, before: Database, after: Database) {
    UnitsOfSteps(repo, StepsOf(o), us) && |us| == i && after == ApplyUnits(before, us)
  }

  lemma {:induction false} StepTaken(repo: Repository, o: PlannedObject, i: nat, us: seq<Unit>, before: Database, middle: Database, after: Database)
    requires Pending(o) && i < |o.transitions| && InTable(repo, o, i, us, before, middle)
    requires Readable(repo, (o, i)) && after == ApplyUnit(middle, TransitionUnit(repo, o, i))
    ensures InTable(repo, o, i + 1, us + [TransitionUnit(repo, o, i)], before, after)
    ensures Leaves(repo, StepsOf(o), us + [TransitionUnit(repo, o, i)], before, after)
  {
  }

  lemma {:induction false} StepMissed(repo: Repository, o: PlannedObject, i: nat, us: seq<Unit>, before: Database, middle: Database, after: Database)
    requires Pending(o) && i < |o.transitions| && InTable(repo, o, i, us, before, middle)
    requires after == middle || Bare(repo, (o, i), middle, after)
    ensures Leaves(repo, StepsOf(o), us, before, after)
  {
  }

  lemma {:induction false} NextJob(repo: Repository, o: PlannedObject, todo: seq<Job>, rest: seq<Job>, i: nat)
    requires Pending(o) && i < |o.transitions| && todo == Jobs(repo, StepsOf(o)) + rest
    ensures todo[i..] != [] && todo[i..][0] == JobOf(repo, o, i) && todo[i..][1..] == todo[i + 1..]
  {
  }

  method ApplyTransitions(conn: TimingConn, repo: Repository, objects: seq<PlannedObject>, result: ApplyResult)
    returns (ghost us: seq<Unit>, ghost q: Progress)
    requires Ready(conn, result) && result.failed == 0
    requires forall o :: o in objects ==> OwnBodies(repo, o)
    modifies conn, result
    ensures Accounted(conn, result)
    ensures Leaves(repo, Steps(objects), us, old(conn.db), conn.db)
    ensures result.failed == 0 ==> |us| == |Steps(objects)| && conn.db == ApplyUnits(old(conn.db), us)
    ensures result.failed == 0 ==> conn.tx.Closed? && conn.poisonedAt.None?
    ensures result.failed == 0 ==> result.applied == old(result.applied) + |us|
    ensures result.applied - old(result.applied) <= |us|
    ensures result.skipped == old(result.skipped)
    ensures Moves(Progress(Jobs(repo, Steps(objects)), AtBegin), old(conn.sent), conn.sent, q) && (conn.connected ==> AtRest(q))
    ensures result.failed == 0 ==> q == Progress([], AtBegin)
    ensures old(conn.Orderly() && conn.connected) ==>
              && (result.failed == 0 <==> TablesOk(repo, objects, conn.needs, old(conn.db).live.Keys))
              && (result.failed == 0 ==> conn.connected && conn.db.live.Keys == old(conn.db).live.Keys + PendingKeys(objects))
  {
    ghost var calm, base := conn.Orderly() && conn.connected, conn.db.live.Keys;
    AllAhead(repo, objects, 0);
    us, q := ApplyAll(conn, repo, objects, result, calm);
    if result.failed == 0 {
      TripEnds(repo, objects, us, old(conn.db), conn.db, old(conn.sent), conn.sent, q);
      HealthyEnds(calm, repo, objects, conn.needs, base, conn.db.live.Keys, conn.connected);
    }
  }

  /** Table after table, up to the first failure. */
  method ApplyAll(conn: TimingConn, repo: Repository, objects: seq<PlannedObject>, result: ApplyResult, ghost calm: bool)
    returns (ghost us: seq<Unit>, ghost q: Progress)
    requires Ready(conn, result) && result.failed == 0 && (calm ==> conn.Orderly() && conn.connected)
    requires forall o :: o in objects ==> OwnBodies(repo, o)
    modifies conn, result
    ensures Accounted(conn, result) && result.skipped == old(result.skipped) && result.applied - old(result.applied) <= |us|
    ensures conn.connected ==> AtRest(q)
    ensures result.failed == 0 ==> Ready(conn, result) && result.applied == old(result.applied) + |us|
    ensures Underway(result.failed == 0, repo, objects, |objects|, us, old(conn.db), conn.db, old(conn.sent), conn.sent, q, calm, conn.needs, conn.connected)
  {
    ghost var before, sent := conn.db, conn.sent;
    us := [];
    q := Progress(Ahead(repo, objects, 0), AtBegin);
    SetOut(repo, objects, conn.db, conn.sent, calm, conn.needs, conn.connected);
    var j := 0;
    while j < |objects|
      invariant 0 <= j <= |objects| && result.failed == 0 && Ready(conn, result) && (calm ==> conn.Orderly()) && AtRest(q)
      invariant result.applied == old(result.applied) + |us| && result.skipped == old(result.skipped)
      invariant true == Underway(true, repo, objects, j, us, before, conn.db, sent, conn.sent, q, calm, conn.needs, conn.connected)
    {
      us, q := ApplyNext(conn, repo, objects, j, result, us, q, before, sent, calm);
      if result.failed > 0 {
        StoppedForGood(repo, objects, j + 1, us, before, conn.db, sent, conn.sent, q, calm, conn.needs, conn.connected);
        return;
      }
      j := j + 1;
    }
  }

  lemma {:induction false} StoppedForGood(repo: Repository, objects: seq<PlannedObject>, j: nat, us: seq<Unit>, before: Database, after: Database,
                                          sent0: seq<Request>, sent: seq<Request>, q: Progress, calm: bool, needs: string -> set<string>, connected: bool)
    requires Underway(false, repo, objects, j, us, before, after, sent0, sent, q, calm, needs, connected)
    ensures Underway(false, repo, objects, |objects|, us, before, after, sent0, sent, q, calm, needs, connected)
  {
  }

  /** Where the run stands: everything before `j` done, or stopped for good. */
  ghost predicate Underway(ok: bool, repo: Repository, objects: seq<PlannedObject>, j: nat, us: seq<Unit>, before: Database, after: Database,
                           sent0: seq<Request>, sent: seq<Request>, q: Progress, calm: bool, needs: string -> set<string>, connected: bool) {
    if ok then
      && Trip(repo, objects, j, us, before, after, sent0, sent, q)
      && Healthy(calm, repo, objects, j, needs, before.live.Keys, after.live.Keys, connected)
    else
      && Leaves(repo, Steps(objects), us, before, after) && Moves(Progress(Ahead(repo, objects, 0), AtBegin), sent0, sent, q)
      && (calm ==> !TablesOk(repo, objects, needs, before.live.Keys))
  }

  lemma {:induction false} SetOut(repo: Repository, objects: seq<PlannedObject>, db: Database, sent: seq<Request>, calm: bool,
                                  needs: string -> set<string>, connected: bool)
    requires calm ==> connected
    ensures Underway(true, repo, objects, 0, [], db, db, sent, sent, Progress(Ahead(repo, objects, 0), AtBegin), calm, needs, connected)
  {
    MovesNowhere(Progress(Ahead(repo, objects, 0), AtBegin), sent);
    assert PendingKeys(objects[..0]) == {};
  }

  lemma {:induction false} HealthyEnds(calm: bool, repo: Repository, objects: seq<PlannedObject>, needs: string -> set<string>,
                                       base: set<string>, live: set<string>, connected: bool)
    requires Healthy(calm, repo, objects, |objects|, needs, base, live, connected)
    ensures calm ==> connected && TablesOk(repo, objects, needs, base) && live == base + PendingKeys(objects)
  {
    assert objects[..|objects|] == objects;
  }

  lemma {:induction false} TripEnds(repo: Repository, objects: seq<PlannedObject>, us: seq<Unit>, before: Database, after: Database,
                                    sent0: seq<Request>, sent: seq<Request>, q: Progress)
    requires Trip(repo, objects, |objects|, us, before, after, sent0, sent, q)
    ensures Leaves(repo, Steps(objects), us, before, after) && |us| == |Steps(objects)| && after == ApplyUnits(before, us)
    ensures q == Progress([], AtBegin) && Moves(Progress(Jobs(repo, Steps(objects)), AtBegin), sent0, sent, q)
  {
    assert objects[..|objects|] == objects;
    BehindIsSteps(objects, |objects|);
    AllAhead(repo, objects, 0);
  }

  /** One object of the plan: its transitions, if it has any to run. */
  method ApplyNext(conn: TimingConn, repo: Repository, objects: seq<PlannedObject>, j: nat, result: ApplyResult, ghost done: seq<Unit>, ghost p: Progress,
                   ghost db0: Database, ghost sent0: seq<Request>, ghost calm: bool)
    returns (ghost us: seq<Unit>, ghost q: Progress)
    requires j < |objects| && OwnBodies(repo, objects[j]) && Ready(conn, result) && result.failed == 0 && (calm ==> conn.Orderly())
    requires Underway(true, repo, objects, j, done, db0, conn.db, sent0, conn.sent, p, calm, conn.needs, conn.connected)
    modifies conn, result
    ensures Accounted(conn, result) && result.skipped == old(result.skipped)
    ensures result.applied - old(result.applied) <= |us| - |done|
    ensures if result.failed == 0 then AtRest(q) else conn.connected ==> AtRest(q)
    ensures result.failed == 0 ==> Ready(conn, result) && result.applied == old(result.applied) + |us| - |done|
    ensures Underway(result.failed == 0, repo, objects, j + 1, us, db0, conn.db, sent0, conn.sent, q, calm, conn.needs, conn.connected)
  {
    us, q := done, p;
    var o := objects[j];
    if !Pending(o) {
      TableSkipped(repo, objects, j, us, db0, conn.db);
      HealthyOne(calm, repo, objects, j, conn.needs, db0.live.Keys, conn.db.live.Keys, conn.db.live.Keys, true, conn.connected);
      return;
    }
    ghost var db, sent := conn.db, conn.sent;
    ghost var vs;
    vs, q := ApplyTable(conn, repo, o, result, Ahead(repo, objects, j + 1));
    TripOn(repo, objects, j, done, db0, db, sent0, sent, p, vs, conn.db, conn.sent, q);
    HealthyOne(calm, repo, objects, j, conn.needs, db0.live.Keys, db.live.Keys, conn.db.live.Keys, result.failed == 0, conn.connected);
    us := done + vs;
  }

  /** All tables before `j` are done and the transcript says so. */
  ghost predicate Trip(repo: Repository, objects: seq<PlannedObject>, j: nat, us: seq<Unit>, before: Database, after: Database,
                       sent0: seq<Request>, sent: seq<Request>, q: Progress) {
    && Arrived(repo, objects, j, us, before, after) && q == Progress(Ahead(repo, objects, j), AtBegin)
    && Moves(Progress(Ahead(repo, objects, 0), AtBegin), sent0, sent, q)
  }

  lemma {:induction false} TripOn(repo: Repository, objects: seq<PlannedObject>, j: nat, us: seq<Unit>, before: Database, middle: Database,
                                  sent0: seq<Request>, sent: seq<Request>, p: Progress, vs: seq<Unit>, after: Database, sent': seq<Request>, q: Progress)
    requires j < |objects| && Trip(repo, objects, j, us, before, middle, sent0, sent, p)
    requires Leaves(repo, StepsOf(objects[j]), vs, middle, after)
    requires Moves(Progress(Jobs(repo, StepsOf(objects[j])) + Ahead(repo, objects, j + 1), AtBegin), sent, sent', q)
    ensures Leaves(repo, Steps(objects), us + vs, before, after)
    ensures Moves(Progress(Ahead(repo, objects, 0), AtBegin), sent0, sent', q)
    ensures |vs| == |StepsOf(objects[j])| && after == ApplyUnits(middle, vs) && q == Progress(Ahead(repo, objects, j + 1), AtBegin) ==>
              Trip(repo, objects, j + 1, us + vs, before, after, sent0, sent', q)
  {
    MovesOn(Progress(Ahead(repo, objects, 0), AtBegin), sent0, sent, p, sent', q);
    TableRuns(repo, objects, j, us, vs, before, middle, after);
  }

  /** The jobs of the tables from `j` on. */
  function Ahead(repo: Repository, objects: seq<PlannedObject>, j: nat): seq<Job>
    requires j <= |objects|
    decreases |objects| - j
  {
    if j == |objects| then [] else Jobs(repo, StepsOf(objects[j])) + Ahead(repo, objects, j + 1)
  }

  lemma {:induction false} AllAhead(repo: Repository, objects: seq<PlannedObject>, j: nat)
    requires j <= |objects|
    ensures Jobs(repo, Steps(objects)) == Jobs(repo, Steps(objects[..j])) + Ahead(repo, objects, j)
    ensures j == 0 ==> Jobs(repo, Steps(objects)) == Ahead(repo, objects, 0)
    decreases |objects| - j
  {
    if j == |objects| {
      assert objects[..j] == objects;
    } else {
      AllAhead(repo, objects, j + 1);
      StepsOneMore(objects, j);
      JobsAppend(repo, Steps(objects[..j]), StepsOf(objects[j]));
      Regroup(Jobs(repo, Steps(objects[..j])), Jobs(repo, StepsOf(objects[j])), Ahead(repo, objects, j + 1));
    }
  }

  /** The steps of the tables before `j`. */
  function Behind(objects: seq<PlannedObject>, j: nat): seq<(PlannedObject, nat)>
    requires j <= |objects|
  {
    if j == 0 then [] else Behind(objects, j - 1) + StepsOf(objects[j - 1])
  }

  lemma {:induction false} BehindIsSteps(objects: seq<PlannedObject>, j: nat)
    requires j <= |objects|
    ensures Behind(objects, j) == Steps(objects[..j])
  {
    if j > 0 {
      BehindIsSteps(objects, j - 1);
      StepsOneMore(objects, j - 1);
    }
  }

  /** All tables before `j` are done. */
  ghost predicate Arrived(repo: Repository, objects: seq<PlannedObject>, j: nat, us: seq<Unit>, before: Database, after: Database) {
    && j <= |objects| && UnitsOfSteps(repo, Behind(objects, j), us) && |us| == |Behind(objects, j)|
    && after == ApplyUnits(before, us)
  }

  lemma {:induction false} TableSkipped(repo: Repository, objects: seq<PlannedObject>, j: nat, us: seq<Unit>, before: Database, after: Database)
    requires j < |objects| && !Pending(objects[j]) && Arrived(repo, objects, j, us, before, after)
    ensures Arrived(repo, objects, j + 1, us, before, after) && Ahead(repo, objects, j) == Ahead(repo, objects, j + 1)
  {
    assert Behind(objects, j + 1) == Behind(objects, j);
    assert Jobs(repo, StepsOf(objects[j])) == [];
  }

  lemma {:induction false} TableRuns(repo: Repository, objects: seq<PlannedObject>, j: nat, us: seq<Unit>, vs: seq<Unit>,
                                     before: Database, middle: Database, after: Database)
    requires j < |objects| && Arrived(repo, objects, j, us, before, middle) && Leaves(repo, StepsOf(objects[j]), vs, middle, after)
    ensures Leaves(repo, Steps(objects), us + vs, before, after)
    ensures |vs| == |StepsOf(objects[j])| && after == ApplyUnits(middle, vs) ==> Arrived(repo, objects, j + 1, us + vs, before, after)
  {
    StepsOneMore(objects, j);
    BehindIsSteps(objects, j);
    var done, own := Behind(objects, j), StepsOf(objects[j]);
    LeavesAppend(repo, done, us, own, vs, Steps(objects), before, middle, after);
    if |vs| == |own| && after == ApplyUnits(middle, vs) {
      StepsAppend(repo, done, us, own, vs, Behind(objects, j + 1));
    }
  }
}
