/**
 A mutating command from the lock to its end: plan from live state, filter, apply.
 What the parts prove comes together here.
 */
module ApplyRun {
  import opened Prelude
  import opened Domain
  import opened Server
  import opened Client
  import opened HistoryWrite
  import opened Units
  import opened Execute
  import opened AuditLoad
  import opened Filter
  import opened Convergence
  import Planner
  import PlanDb
  import Scope

  datatype LockError = LockTimeout | LockCanceled | LockDeadlock | LockCallFailed(code: int)

  /** Non-negative codes grant the lock; only -1 is a timeout. */
  function ClassifyApplock(code: int): Result<(), LockError> {
    if code >= 0 then Ok(())
    else if code == -1 then Err(LockTimeout)
    else if code == -2 then Err(LockCanceled)
    else if code == -3 then Err(LockDeadlock)
    else Err(LockCallFailed(code))
  }

  /** The session's advisory lock; `held` is what the server says. */
  class AppLock {
    var held: bool

    constructor ()
      ensures !held
    {
      held := false;
    }

    /** The server grants the lock exactly with a non-negative code; what is told to the caller agrees, and each refusal has its own code. */
    method Acquire(code: int) returns (r: Result<(), LockError>)
      requires !held
      modifies this
      ensures held <==> code >= 0
      ensures (r.Ok? <==> held) && (r == Err(LockTimeout) <==> code == -1)
      ensures (r == Err(LockCanceled) <==> code == -2) && (r == Err(LockDeadlock) <==> code == -3)
      ensures code < -3 ==> r == Err(LockCallFailed(code))
    {
      held := code >= 0;
      r := ClassifyApplock(code);
    }

    /** A failed release is logged and nothing else. */
    method Release(ok: bool)
      modifies this
      ensures held == (old(held) && !ok)
    {
      if ok {
        held := false;
      }
    }
  }

  /** How a command ends before, or with, its apply phase. */
  datatype RunEnding =
    | NotLocked(error: LockError)
    | PlanFailed(reason: PlanDb.Failure)
    | Blocked
    | AdoptionRefused
    | HistoryUnreadable
    | TamperedHistory(paths: seq<string>)
    | Ran(ending: Ending)

  /** The rows that were planned, the path lists the filter left, and the stages of the transcript. */
  datatype Execution = Execution(rows: seq<Planner.Row>, pending: map<nat, seq<string>>, stages: Stages)

  const NOTHING := Execution([], map[], Stages([], [], Stopped, []))

  /** Between two states of the transcript the filtered plan was executed, and nothing else was sent. */
  ghost predicate Executed(repo: Repository, layout: Planner.Layout, history: seq<Row>, before: seq<Request>, after: seq<Request>, run: Execution) {
    && |run.rows| == |layout.objects|
    && Filtered(run.rows, Planner.PathTable(layout, run.rows), AppliedMap(history), |run.rows|, run.pending)
    && Transcribes(repo, Materialized(layout, run.rows, run.pending), before, after, run.stages)
  }

  /** Every body in the repository defines its own object, under its own path. */
  ghost predicate OwnsBodies(repo: Repository, layout: Planner.Layout) {
    forall i :: 0 <= i < |layout.objects| ==> OwnsRow(repo, layout, i)
  }

  ghost predicate OwnsRow(repo: Repository, layout: Planner.Layout, i: nat)
    requires i < |layout.objects|
  {
    var o := layout.objects[i];
    && (o.path in repo.disk ==> repo.disk[o.path].body.key == o.key && repo.disk[o.path].body.script.None?)
    && (i + 1 in layout.paths ==> forall p :: p in layout.paths[i + 1] && p in repo.disk ==>
          repo.disk[p].body.key == o.key && repo.disk[p].body.script == Some(p))
  }

  /** The facts depend on the catalog's objects only. */
  lemma {:induction false} FactsByObjects(layout: Planner.Layout, a: Planner.Catalog, b: Planner.Catalog, c: Planner.Checksums)
    requires a.objects == b.objects
    ensures Planner.FactsOf(layout, a, c) == Planner.FactsOf(layout, b, c)
  {
  }

  lemma {:induction false} KeysAgree(layout: Planner.Layout, key: string)
    ensures key in Planner.Keys(layout) <==> key in Scope.KeySet(layout.objects)
  {
  }

  /** The diff of a live snapshot is the live plan. */
  lemma {:induction false} SnapshotPlan(layout: Planner.Layout, db: Database, catalog: Planner.Catalog, c: Planner.Checksums)
    requires catalog.objects == Scope.Inspect(PlanDb.LiveObjects(db), Scope.KeySet(layout.objects))
    ensures Planner.FreshPlan(layout, Planner.FactsOf(layout, catalog, c), catalog, c.drift) == LivePlan(layout, db, catalog.schemas, c)
  {
    var live := LiveCatalog(layout, db, catalog.schemas);
    assert catalog.objects == live.objects by {
      forall k ensures k in Planner.Keys(layout) <==> k in Scope.KeySet(layout.objects) { KeysAgree(layout, k); }
    }
    assert catalog == live;
    FactsByObjects(layout, live, LiveCatalog(layout, db, {}), c);
  }

  /** Plans from live state into a new plan; whatever the caches hold, it is the live plan. */
  method PlanPhase(phase: PlanDb.PlanPhase, cfg: PlanDb.Config, ws: Planner.Workspace, repair: bool)
    returns (r: Result<Planner.MigrationPlan, PlanDb.Failure>, ghost schemas: set<string>, ghost c: Planner.Checksums)
    requires phase.Valid() && Planner.DistinctObjects(ws.layout.objects) && ws.Cleared()
    modifies phase, ws
    ensures r.Ok? ==>
              && fresh(r.value) && Loaded(phase.db, Planner.Keys(ws.layout), repair) == Ok(c)
              && r.value.View() == LivePlan(ws.layout, phase.db, schemas, c)
    ensures r.Err? ==> Loaded(phase.db, Planner.Keys(ws.layout), repair).Err? || !phase.AllUp()
  {
    schemas, c := {}, Planner.Checksums(map[], {});
    var snapshot;
    ghost var scope;
    snapshot, scope := phase.RunPlanDbPhase(cfg, ws.layout, map[], true, repair);
    if snapshot.Err? {
      return Err(snapshot.error), schemas, c;
    }
    schemas, c := snapshot.value.catalog.schemas, snapshot.value.checksums;
    var plan := new Planner.MigrationPlan();
    assert plan.Coherent(ws.layout);
    Planner.ComputeDiffInto(ws, snapshot.value.catalog, snapshot.value.checksums, plan);
    SnapshotPlan(ws.layout, phase.db, snapshot.value.catalog, c);
    return Ok(plan), schemas, c;
  }

  /** Filtering only removes transitions, so the bodies stay each object's own. */
  lemma {:induction false} OwnAfterFilter(repo: Repository, layout: Planner.Layout, rows: seq<Planner.Row>, applied: map<string, StoredChecksum>,
                                          pending: map<nat, seq<string>>)
    requires OwnsBodies(repo, layout) && |rows| == |layout.objects|
    requires Filtered(rows, Planner.PathTable(layout, rows), applied, |rows|, pending)
    ensures forall o :: o in Materialized(layout, rows, pending) ==> OwnBodies(repo, o)
  {
    var objects := Materialized(layout, rows, pending);
    forall o | o in objects
      ensures OwnBodies(repo, o)
    {
      var i :| 0 <= i < |objects| && objects[i] == o;
      assert OwnsRow(repo, layout, i);
      var table := Planner.PathTable(layout, rows);
      if i in pending {
        assert i in table && Planner.PathsFor(layout, i, rows[i].action) == Some(layout.paths[i + 1]);
        UnappliedMembers(table[i], applied);
      }
    }
  }

  /** A migrate that ends without failure converges; one that stops before its apply phase has sent nothing. */
  method Migrate(lock: AppLock, lockCode: int, released: bool, conn: TimingConn, phase: PlanDb.PlanPhase, cfg: PlanDb.Config, ws: Planner.Workspace, repo: Repository,
                 current: map<string, nat>, allowAdopt: bool, historyLoads: bool)
    returns (ending: RunEnding, ghost schemas: set<string>, ghost c: Planner.Checksums, ghost run: Execution)
    requires conn.Contained() && conn.poisonedAt.None? && phase.Valid() && phase.db == conn.db && ws.Cleared() && !lock.held
    requires ProperLayout(ws.layout) && OwnsBodies(repo, ws.layout)
    modifies lock, conn, phase, ws
    ensures conn.Contained()
    ensures (ending.NotLocked? <==> lockCode < 0) && (ending == NotLocked(LockTimeout) <==> lockCode == -1)
    ensures lock.held <==> lockCode >= 0 && !released
    ensures !ending.Ran? ==> conn.db == old(conn.db) && conn.issued == old(conn.issued)
    ensures ending == Ran(Finished) ==>
              && Loaded(old(conn.db), Planner.Keys(ws.layout), false) == Ok(c)
              && Loaded(conn.db, Planner.Keys(ws.layout), false).Ok?
              && forall i :: 0 <= i < |ws.layout.objects| ==>
                   RowReplanned(ws.layout, old(conn.db), c, conn.db, Loaded(conn.db, Planner.Keys(ws.layout), false).value, i)
    ensures if ending.Ran? then Executed(repo, ws.layout, old(conn.db).history, old(conn.sent), conn.sent, run) else conn.sent == old(conn.sent)
    ensures old(conn.Orderly() && conn.connected) ==>
              Finishes(repo, ws.layout, LivePlan(ws.layout, old(conn.db), schemas, c).schemas, run, conn.needs, old(conn.db).live.Keys, ending)
    ensures ending.NotLocked? || Answered(ws.layout, old(conn.db), schemas, c, phase.AllUp(), current, allowAdopt, historyLoads, ending)
  {
    run := NOTHING;
    schemas, c := {}, Planner.Checksums(map[], {});
    var locked := lock.Acquire(lockCode);
    if locked.Err? {
      return NotLocked(locked.error), schemas, c, run;
    }
    ending, schemas, c, run := LockedBody(lock, conn, phase, cfg, ws, repo, current, allowAdopt, historyLoads);
    lock.Release(released);
  }

  /** Planning and applying, both with the lock held. */
  method LockedBody(lock: AppLock, conn: TimingConn, phase: PlanDb.PlanPhase, cfg: PlanDb.Config, ws: Planner.Workspace, repo: Repository,
                    current: map<string, nat>, allowAdopt: bool, historyLoads: bool)
    returns (ending: RunEnding, ghost schemas: set<string>, ghost c: Planner.Checksums, ghost run: Execution)
    requires conn.Contained() && conn.poisonedAt.None? && phase.Valid() && phase.db == conn.db && ws.Cleared() && lock.held
    requires ProperLayout(ws.layout) && OwnsBodies(repo, ws.layout)
    modifies conn, phase, ws
    ensures conn.Contained() && !ending.NotLocked?
    ensures !ending.Ran? ==> conn.db == old(conn.db) && conn.issued == old(conn.issued)
    ensures ending == Ran(Finished) ==>
              && Loaded(old(conn.db), Planner.Keys(ws.layout), false) == Ok(c)
              && Loaded(conn.db, Planner.Keys(ws.layout), false).Ok?
              && forall i :: 0 <= i < |ws.layout.objects| ==>
                   RowReplanned(ws.layout, old(conn.db), c, conn.db, Loaded(conn.db, Planner.Keys(ws.layout), false).value, i)
    ensures if ending.Ran? then Executed(repo, ws.layout, old(conn.db).history, old(conn.sent), conn.sent, run) else conn.sent == old(conn.sent)
    ensures old(conn.Orderly() && conn.connected) ==>
              Finishes(repo, ws.layout, LivePlan(ws.layout, old(conn.db), schemas, c).schemas, run, conn.needs, old(conn.db).live.Keys, ending)
    ensures Answered(ws.layout, old(conn.db), schemas, c, phase.AllUp(), current, allowAdopt, historyLoads, ending)
  {
    run := NOTHING;
    var planned;
    planned, schemas, c := PlanPhase(phase, cfg, ws, false);
    if planned.Err? {
      return PlanFailed(planned.error), schemas, c, run;
    }
    ending, run := ApplyPlan(lock, conn, planned.value, ws.layout, repo, current, allowAdopt, historyLoads, schemas, c);
  }

  /** Some row would take an object over as it is. */
  predicate Adopts(rows: seq<Planner.Row>) {
    exists i :: 0 <= i < |rows| && rows[i].action.AdoptExisting?
  }

  /** How each gate answers, in order: a blocked plan, adoption without leave, a history that cannot be read, an edited applied file. */
  ghost predicate Gated(p: Planner.PlanView, history: seq<Row>, current: map<string, nat>, allowAdopt: bool, historyLoads: bool, ending: RunEnding) {
    var adoptionStops := !allowAdopt && Adopts(p.rows);
    var unreadable := !historyLoads && FilterNeeded(p.rows, p.transitions);
    var tampered := exists path :: Accused(p.rows, p.transitions, history, current, path);
    && (ending.Blocked? <==> p.blocked)
    && (ending.AdoptionRefused? <==> !p.blocked && adoptionStops)
    && (ending.HistoryUnreadable? <==> !p.blocked && !adoptionStops && unreadable)
    && (ending.TamperedHistory? <==> !p.blocked && !adoptionStops && !unreadable && tampered)
    && (ending.TamperedHistory? ==> forall path :: path in ending.paths <==> Accused(p.rows, p.transitions, history, current, path))
    && (ending.Ran? <==> !p.blocked && !adoptionStops && !unreadable && !tampered)
  }

  /** Without the plan of the live state there is no run; with it the gates answer. */
  ghost predicate Answered(layout: Planner.Layout, db: Database, schemas: set<string>, c: Planner.Checksums, up: bool,
                           current: map<string, nat>, allowAdopt: bool, historyLoads: bool, ending: RunEnding) {
    if ending.PlanFailed? then !up || Loaded(db, Planner.Keys(layout), false).Err?
    else
      && Loaded(db, Planner.Keys(layout), false) == Ok(c)
      && Gated(LivePlan(layout, db, schemas, c), db.history, current, allowAdopt, historyLoads, ending)
  }

  /** A run ends without failure exactly if its filtered plan can be carried out. */
  ghost predicate Finishes(repo: Repository, layout: Planner.Layout, schemas: seq<Planner.PlannedSchema>, run: Execution,
                           needs: string -> set<string>, live: set<string>, ending: RunEnding) {
    ending.Ran? ==>
      && |run.rows| == |layout.objects|
      && (ending.ending.Finished? <==> Achievable(repo, Plan(false, schemas, Materialized(layout, run.rows, run.pending)), needs, live))
  }

  /** The gates and, behind them, the history filter, which edits the plan's path lists in place. */
  method PassGates(plan: Planner.MigrationPlan, history: seq<Row>, current: map<string, nat>, allowAdopt: bool, historyLoads: bool)
    returns (refused: Option<RunEnding>)
    modifies plan`transitions
    ensures refused.Some? ==> !refused.value.Ran? && !refused.value.NotLocked?
    ensures Gated(old(plan.View()), history, current, allowAdopt, historyLoads, refused.GetOr(Ran(Finished)))
    ensures refused.None? ==> Filtered(plan.rows, old(plan.transitions), AppliedMap(history), |plan.rows|, plan.transitions)
  {
    AccusedMembers(plan.rows, plan.transitions, history, current);
    if plan.blocked {
      return Some(Blocked);
    }
    if !allowAdopt && exists i :: 0 <= i < |plan.rows| && plan.rows[i].action.AdoptExisting? {
      return Some(AdoptionRefused);
    }
    if FilterNeeded(plan.rows, plan.transitions) && !historyLoads {
      return Some(HistoryUnreadable);
    }
    var filtered := FilterApplied(plan, AppliedMap(history), current);
    if filtered.Err? {
      return Some(TamperedHistory(filtered.error));
    }
    return None;
  }

  /** Which gate answers does not depend on how a run goes. */
  lemma {:induction false} GatedWhateverTheEnd(p: Planner.PlanView, history: seq<Row>, current: map<string, nat>, allowAdopt: bool, historyLoads: bool, a: Ending, b: Ending)
    requires Gated(p, history, current, allowAdopt, historyLoads, Ran(a))
    ensures Gated(p, history, current, allowAdopt, historyLoads, Ran(b))
  {
  }

  /** The apply half: the gates, the history filter and the executor. */
  method ApplyPlan(lock: AppLock, conn: TimingConn, plan: Planner.MigrationPlan, layout: Planner.Layout, repo: Repository,
                   current: map<string, nat>, allowAdopt: bool, historyLoads: bool, ghost schemas: set<string>, ghost c: Planner.Checksums)
    returns (ending: RunEnding, ghost run: Execution)
    requires conn.Contained() && conn.poisonedAt.None? && ProperLayout(layout) && OwnsBodies(repo, layout) && lock.held
    requires Loaded(conn.db, Planner.Keys(layout), false) == Ok(c) && plan.View() == LivePlan(layout, conn.db, schemas, c)
    modifies conn, plan
    ensures conn.Contained()
    ensures !ending.Ran? ==> conn.db == old(conn.db) && conn.issued == old(conn.issued)
    ensures ending == Ran(Finished) ==>
              && Loaded(conn.db, Planner.Keys(layout), false).Ok?
              && forall i :: 0 <= i < |layout.objects| ==>
                   RowReplanned(layout, old(conn.db), c, conn.db, Loaded(conn.db, Planner.Keys(layout), false).value, i)
    ensures if ending.Ran? then Executed(repo, layout, old(conn.db).history, old(conn.sent), conn.sent, run) else conn.sent == old(conn.sent)
    ensures Gated(old(plan.View()), old(conn.db).history, current, allowAdopt, historyLoads, ending)
    ensures old(conn.Orderly() && conn.connected) ==>
              Finishes(repo, layout, old(plan.View()).schemas, run, conn.needs, old(conn.db).live.Keys, ending)
  {
    run := NOTHING;
    var refused := PassGates(plan, conn.db.history, current, allowAdopt, historyLoads);
    if refused.Some? {
      return refused.value, run;
    }
    ghost var applied := AppliedMap(conn.db.history);
    OwnAfterFilter(repo, layout, plan.rows, applied, plan.transitions);
    var objects := Materialized(layout, plan.rows, plan.transitions);
    var outcome;
    ghost var middle, ts, us, t;
    outcome, middle, ts, us, t := ExecutePlan(conn, repo, Plan(plan.blocked, plan.schemas, objects));
    if outcome.Finished? {
      Converges(layout, repo, old(conn.db), schemas, c, plan.transitions, conn.db, ts, us);
    }
    run := Execution(plan.rows, plan.transitions, t);
    GatedWhateverTheEnd(old(plan.View()), old(conn.db).history, current, allowAdopt, historyLoads, Finished, outcome);
    ending := Ran(outcome);
  }

  lemma {:induction false} RewrittenExist(layout: Planner.Layout, db: Database, c: Planner.Checksums, objects: seq<PlannedObject>)
    requires ProperLayout(layout) && Loaded(db, Planner.Keys(layout), true) == Ok(c) && PlannedFrom(layout, db, c, objects)
    ensures forall o :: o in objects && Rewritten(RepairChecksum, o) ==> o.key in db.live
  {
  }

  /** What a finished repair-checksum leaves: every existing object is skipped, every other one created. */
  ghost predicate Repaired(layout: Planner.Layout, before: Database, after: Database) {
    && after.live == before.live && after.executed == before.executed
    && (Loaded(after, Planner.Keys(layout), false).Ok? <==> AbsentDecodable(layout, before))
    && forall repair :: Loaded(after, Planner.Keys(layout), repair).Ok? ==>
         forall i :: 0 <= i < |layout.objects| ==> RowSettled(layout, after, Loaded(after, Planner.Keys(layout), repair).value, i)
  }

  /** repair-checksum: no script runs, and on a healthy server it always finishes, blocked plan or not. */
  method RepairChecksums(lock: AppLock, lockCode: int, released: bool, conn: TimingConn, phase: PlanDb.PlanPhase, cfg: PlanDb.Config, ws: Planner.Workspace)
    returns (ending: RunEnding)
    requires conn.Contained() && conn.poisonedAt.None? && phase.Valid() && phase.db == conn.db && ws.Cleared() && ProperLayout(ws.layout) && !lock.held
    modifies lock, conn, phase, ws
    ensures (ending.NotLocked? <==> lockCode < 0) && (ending == NotLocked(LockTimeout) <==> lockCode == -1)
    ensures lockCode < 0 ==> conn.db == old(conn.db) && conn.sent == old(conn.sent)
    ensures lock.held <==> lockCode >= 0 && !released
    ensures conn.Contained() && conn.issued == old(conn.issued) && conn.db.live == old(conn.db).live && conn.db.executed == old(conn.db).executed
    ensures ending == Ran(Finished) ==> Repaired(ws.layout, old(conn.db), conn.db)
    ensures lockCode >= 0 && phase.AllUp() && old(conn.Orderly() && conn.connected) ==> ending == Ran(Finished)
  {
    var locked := lock.Acquire(lockCode);
    if locked.Err? {
      return NotLocked(locked.error);
    }
    ending := LockedRepair(lock, conn, phase, cfg, ws);
    lock.Release(released);
  }

  method LockedRepair(lock: AppLock, conn: TimingConn, phase: PlanDb.PlanPhase, cfg: PlanDb.Config, ws: Planner.Workspace)
    returns (ending: RunEnding)
    requires conn.Contained() && conn.poisonedAt.None? && phase.Valid() && phase.db == conn.db && ws.Cleared() && ProperLayout(ws.layout) && lock.held
    modifies conn, phase, ws
    ensures !ending.NotLocked?
    ensures conn.Contained() && conn.issued == old(conn.issued) && conn.db.live == old(conn.db).live && conn.db.executed == old(conn.db).executed
    ensures ending == Ran(Finished) ==> Repaired(ws.layout, old(conn.db), conn.db)
    ensures phase.AllUp() && old(conn.Orderly() && conn.connected) ==> ending == Ran(Finished)
  {
    var planned;
    ghost var schemas, c;
    planned, schemas, c := RepairPlan(phase, cfg, ws);
    if planned.Err? {
      return PlanFailed(planned.error);
    }
    var plan := planned.value;
    var objects := Materialized(ws.layout, plan.rows, plan.transitions);
    MaterializedIsPlanned(ws.layout, conn.db, schemas, c, plan.transitions);
    RewrittenExist(ws.layout, conn.db, c, objects);
    var outcome := ExecuteMetadataPlan(conn, Plan(plan.blocked, plan.schemas, objects), RepairChecksum);
    if outcome.Finished? {
      RepairSettles(ws.layout, old(conn.db), schemas, c, conn.db, true);
      RepairSettles(ws.layout, old(conn.db), schemas, c, conn.db, false);
    }
    ending := Ran(outcome);
  }

  /** Planning for repair fails only when a request does: undecodable checksums read as no baseline. */
  method RepairPlan(phase: PlanDb.PlanPhase, cfg: PlanDb.Config, ws: Planner.Workspace)
    returns (r: Result<Planner.MigrationPlan, PlanDb.Failure>, ghost schemas: set<string>, ghost c: Planner.Checksums)
    requires phase.Valid() && Planner.DistinctObjects(ws.layout.objects) && ws.Cleared()
    modifies phase, ws
    ensures r.Ok? ==>
              && fresh(r.value) && Loaded(phase.db, Planner.Keys(ws.layout), true) == Ok(c)
              && r.value.View() == LivePlan(ws.layout, phase.db, schemas, c)
    ensures phase.AllUp() ==> r.Ok?
  {
    LoadedFromHistory(phase.db, Planner.Keys(ws.layout), true);
    r, schemas, c := PlanPhase(phase, cfg, ws, true);
  }
}
