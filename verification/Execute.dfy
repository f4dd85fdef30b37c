/**
 The whole apply: audit tables, schemas, table transitions, then objects, stopping
 at the first phase that fails; and the metadata-only commands.
 */
module Execute {
  import opened Prelude
  import opened Domain
  import opened Server
  import opened Client
  import opened HistoryWrite
  import opened Units
  import opened Transitions
  import opened Modules
  import opened Objects
  import opened SqlIdent
  import Planner

  datatype Plan = Plan(blocked: bool, schemas: seq<Planner.PlannedSchema>, objects: seq<PlannedObject>)

  /** How a run ends: refused, aborted before the first phase, failed with errors, or without any. */
  datatype Ending = PlanBlocked | Aborted | FailedWith(errors: seq<Failure>) | Finished

  /** What a run of `plan` may leave behind: `ts` from the transitions, then `us` from the objects. */
  ghost predicate RunLeaves(repo: Repository, objects: seq<PlannedObject>, before: Database, middle: Database, after: Database,
                            ts: seq<Unit>, us: seq<Unit>) {
    && Leaves(repo, Steps(objects), ts, before, middle)
    && InOrder(repo, objects, us) && after == ApplyUnits(middle, us)
    && (us != [] ==> |ts| == |Steps(objects)| && middle == ApplyUnits(before, ts))
  }

  /** A run without failure: every transition, every adoption, every script, each with its audit rows. */
  ghost predicate RunCompletes(repo: Repository, objects: seq<PlannedObject>, before: Database, after: Database,
                               ts: seq<Unit>, us: seq<Unit>) {
    && UnitsOfSteps(repo, Steps(objects), ts) && |ts| == |Steps(objects)|
    && InOrder(repo, objects, us) && AllIn(repo, objects, us)
    && after == ApplyUnits(ApplyUnits(before, ts), us)
    && (forall o :: o in objects && o.action.AdoptExisting? ==> o.key in ApplyUnits(before, ts).live)
  }

  /** The transcript of a run: how long it was when the transitions began, ended, and the objects ended; `at` is where the transitions stopped. */
  datatype Stages = Stages(ready: seq<Request>, moved: seq<Request>, at: Progress, applied: seq<Request>)

  /** Housekeeping, the transitions in order, only after all of them the objects, and housekeeping again. */
  ghost predicate Transcribes(repo: Repository, objects: seq<PlannedObject>, before: seq<Request>, after: seq<Request>, t: Stages) {
    && OnlyChores(before, t.ready) && ScriptsSent(repo, objects, t)
    && OnlyChores(t.applied, after) && (after != t.applied ==> AtRest(t.at))
  }

  ghost predicate ScriptsSent(repo: Repository, objects: seq<PlannedObject>, t: Stages) {
    && Moves(Progress(Jobs(repo, Steps(objects)), AtBegin), t.ready, t.moved, t.at)
    && ObjectWork(repo, t.moved, t.applied) && (t.applied != t.moved ==> t.at == Progress([], AtBegin))
  }

  /** One statement outside the modelled state. */
  method KeepHouse(conn: TimingConn, chore: Chore) returns (ok: bool)
    requires conn.Logged()
    modifies conn
    ensures conn.Logged() && conn.db == old(conn.db) && conn.issued == old(conn.issued) && conn.poisonedAt == old(conn.poisonedAt)
    ensures old(conn.tx.Closed?) ==> conn.tx.Closed?
    ensures old(conn.Orderly() && conn.connected) ==> ok && conn.connected
    ensures SentChores(if old(conn.connected) then [chore] else [], old(conn.sent), conn.sent) && (ok ==> old(conn.connected))
  {
    ghost var outcome, before := conn.fate(conn.clock, conn.db, conn.tx, Housekeeping(chore)), conn.sent;
    assert conn.Orderly() ==> outcome == Done;
    HousekeepingIsIdle(conn.db, conn.tx, chore, outcome);
    ok := conn.Exec(Housekeeping(chore));
    ghost var more := if old(conn.connected) then [Request(Housekeeping(chore), outcome, ok)] else [];
    assert conn.sent == before + more;
    SentChore(before, more, if old(conn.connected) then [chore] else []);
  }

  lemma {:induction false} HousekeepingIsIdle(db: Database, tx: Tx, chore: Chore, outcome: Outcome)
    ensures var (db', tx', reply) := Server.Execute(db, tx, Housekeeping(chore), outcome);
            db' == db && (tx.Closed? ==> tx'.Closed?) && (outcome == Done ==> reply.Succeeded?)
  {
  }

  /** The statement that creates a missing schema. */
  function CreationOf(s: Planner.PlannedSchema): seq<Chore> {
    if s.action.CreateSchema? then [SchemaDdl(CreateSchemaSql(s.name))] else []
  }

  /** The statements that create the missing schemas, in the plan's order. */
  function Creations(schemas: seq<Planner.PlannedSchema>): seq<Chore> {
    if schemas == [] then [] else Creations(schemas[..|schemas| - 1]) + CreationOf(schemas[|schemas| - 1])
  }

  /** The name of a schema to create may stand in a statement. */
  predicate Nameable(s: Planner.PlannedSchema) {
    s.action.CreateSchema? ==> ValidIdentifier(s.name)
  }

  ghost predicate AllNameable(schemas: seq<Planner.PlannedSchema>) {
    forall k :: 0 <= k < |schemas| ==> Nameable(schemas[k])
  }

  lemma {:induction false} CreationsOne(schemas: seq<Planner.PlannedSchema>, i: nat)
    requires i < |schemas|
    ensures Creations(schemas[..i + 1]) == Creations(schemas[..i]) + CreationOf(schemas[i])
  {
    assert schemas[..i + 1][..i] == schemas[..i];
  }

  /** Creates the missing schemas; without failure a statement was sent for each of them and for no other. */
  method ApplySchemas(conn: TimingConn, schemas: seq<Planner.PlannedSchema>, result: ApplyResult)
    requires Ready(conn, result) && result.failed == 0
    modifies conn, result
    ensures Ready(conn, result) && conn.db == old(conn.db) && conn.issued == old(conn.issued)
    ensures OnlyChores(old(conn.sent), conn.sent)
    ensures result.failed == 0 ==> AllNameable(schemas) && SentChores(Creations(schemas), old(conn.sent), conn.sent)
    ensures old(conn.Orderly() && conn.connected) ==> (result.failed == 0 <==> AllNameable(schemas)) && (result.failed == 0 ==> conn.connected)
  {
    ghost var calm, before := conn.Orderly() && conn.connected, conn.sent;
    SentNothing(conn.sent);
    var i := 0;
    while i < |schemas|
      invariant 0 <= i <= |schemas|
      invariant Ready(conn, result) && conn.db == old(conn.db) && conn.issued == old(conn.issued) && result.failed == 0
      invariant true == Created(schemas, i, before, conn.sent) && (calm ==> conn.connected && conn.Orderly())
    {
      ghost var sent := conn.sent;
      ghost var chores := ApplySchema(conn, schemas[i], result);
      CreatedOne(schemas, i, before, sent, conn.sent, chores, result.failed == 0);
      if result.failed > 0 {
        return;
      }
      i := i + 1;
    }
    CreatedAll(schemas, before, conn.sent);
  }

  method ApplySchema(conn: TimingConn, s: Planner.PlannedSchema, result: ApplyResult) returns (ghost chores: seq<Chore>)
    requires Ready(conn, result) && result.failed == 0
    modifies conn, result
    ensures Ready(conn, result) && conn.db == old(conn.db) && conn.issued == old(conn.issued)
    ensures SentChores(chores, old(conn.sent), conn.sent)
    ensures result.failed == 0 ==> Nameable(s) && chores == CreationOf(s)
    ensures old(conn.Orderly() && conn.connected) ==> (result.failed == 0 <==> Nameable(s)) && (result.failed == 0 ==> conn.connected)
  {
    chores := [];
    SentNothing(conn.sent);
    if s.action.SchemaExists? {
      result.skipped := result.skipped + 1;
      return;
    }
    var sql := BuildCreateSchemaSql(s.name);
    if sql.None? {
      result.PushError(StatementFailed(s.name));
      return;
    }
    chores := if conn.connected then [SchemaDdl(sql.value)] else [];
    var ok := KeepHouse(conn, SchemaDdl(sql.value));
    if !ok {
      result.PushError(StatementFailed(s.name));
      return;
    }
    result.applied := result.applied + 1;
  }

  /** The first `i` schemas are seen to. */
  ghost predicate Created(schemas: seq<Planner.PlannedSchema>, i: nat, sent0: seq<Request>, sent: seq<Request>) {
    i <= |schemas| && AllNameable(schemas[..i]) && SentChores(Creations(schemas[..i]), sent0, sent)
  }

  lemma {:induction false} SentNothing(sent: seq<Request>)
    ensures SentChores([], sent, sent)
  {
    SentChore(sent, [], []);
    assert sent + [] == sent;
  }

  /** One schema on: done, or stopped at a statement that failed or a name that may not stand in one. */
  lemma {:induction false} CreatedOne(schemas: seq<Planner.PlannedSchema>, i: nat, sent0: seq<Request>, sent: seq<Request>, sent': seq<Request>,
                                      chores: seq<Chore>, ok: bool)
    requires i < |schemas| && Created(schemas, i, sent0, sent) && SentChores(chores, sent, sent')
    requires ok ==> Nameable(schemas[i]) && chores == CreationOf(schemas[i])
    ensures OnlyChores(sent0, sent') && (ok ==> Created(schemas, i + 1, sent0, sent')) && (!Nameable(schemas[i]) ==> !AllNameable(schemas))
  {
    assert schemas[..i + 1] == schemas[..i] + [schemas[i]];
    SentChoresOn(sent0, sent, sent', Creations(schemas[..i]), chores);
    CreationsOne(schemas, i);
  }

  lemma {:induction false} CreatedAll(schemas: seq<Planner.PlannedSchema>, sent0: seq<Request>, sent: seq<Request>)
    requires Created(schemas, |schemas|, sent0, sent)
    ensures AllNameable(schemas) && SentChores(Creations(schemas), sent0, sent) && OnlyChores(sent0, sent)
  {
    assert schemas[..|schemas|] == schemas;
  }

  /** Audit tables, then schemas. */
  method Prepare(conn: TimingConn, schemas: seq<Planner.PlannedSchema>, result: ApplyResult) returns (ok: bool)
    requires Ready(conn, result) && result.failed == 0
    modifies conn, result
    ensures Ready(conn, result) && conn.db == old(conn.db) && conn.issued == old(conn.issued) && OnlyChores(old(conn.sent), conn.sent)
    ensures ok && result.failed == 0 ==> AllNameable(schemas) && SentChores(BOOTSTRAP + Creations(schemas), old(conn.sent), conn.sent)
    ensures old(conn.Orderly() && conn.connected) ==>
              ok && (result.failed == 0 <==> AllNameable(schemas)) && (result.failed == 0 ==> conn.connected)
  {
    ok := EnsureTables(conn);
    if !ok {
      return;
    }
    ghost var sent := conn.sent;
    ApplySchemas(conn, schemas, result);
    ChoresBoth(old(conn.sent), sent, conn.sent);
    if result.failed == 0 {
      SentChoresOn(old(conn.sent), sent, conn.sent, BOOTSTRAP, Creations(schemas));
    }
  }

  /** Errors decide the ending; once anything was applied the catalog cache is dropped first, which may fail without consequence. */
  method Finish(conn: TimingConn, result: ApplyResult) returns (ending: Ending)
    requires Accounted(conn, result)
    modifies conn
    ensures Accounted(conn, result) && conn.db == old(conn.db) && conn.issued == old(conn.issued)
    ensures conn.poisonedAt == old(conn.poisonedAt)
    ensures ending == if result.failed > 0 then FailedWith(result.errors) else Finished
    ensures SentChores(if result.applied > 0 && old(conn.connected) then [DropCatalogCache] else [], old(conn.sent), conn.sent)
  {
    if result.applied > 0 {
      var _ := KeepHouse(conn, DropCatalogCache);
    } else {
      SentNothing(conn.sent);
    }
    ending := if result.failed > 0 then FailedWith(result.errors) else Finished;
  }

  const BOOTSTRAP := [BootstrapTables, BootstrapDrift, HistoryIndex]

  /** Creates or upgrades the audit tables and the history index. */
  method EnsureTables(conn: TimingConn) returns (ok: bool)
    requires conn.Contained() && conn.tx.Closed?
    modifies conn
    ensures conn.Contained() && conn.tx.Closed? && conn.db == old(conn.db) && conn.issued == old(conn.issued)
    ensures conn.poisonedAt == old(conn.poisonedAt)
    ensures old(conn.Orderly() && conn.connected) ==> ok && conn.connected
    ensures OnlyChores(old(conn.sent), conn.sent) && (ok ==> SentChores(BOOTSTRAP, old(conn.sent), conn.sent))
  {
    ok := KeepHouse(conn, BootstrapTables);
    if !ok {
      return;
    }
    ghost var sent := conn.sent;
    ghost var chores := if conn.connected then [BootstrapDrift] else [];
    ok := KeepHouse(conn, BootstrapDrift);
    SentChoresOn(old(conn.sent), sent, conn.sent, [BootstrapTables], chores);
    if !ok {
      return;
    }
    sent, chores := conn.sent, if conn.connected then [HistoryIndex] else [];
    ok := KeepHouse(conn, HistoryIndex);
    SentChoresOn(old(conn.sent), sent, conn.sent, [BootstrapTables] + [BootstrapDrift], chores);
    assert [BootstrapTables] + [BootstrapDrift] + [HistoryIndex] == BOOTSTRAP;
  }

  /** No change is skipped in silence: its transitions run, or it is a table that has none left, or the run fails. */
  lemma {:induction false} ChangesAreSeenTo(o: PlannedObject)
    ensures FailsClosed(o) <==> o.action.ReprocessChanged? && StepsOf(o) == [] && !o.kind.Tables?
  {
  }

  /** What an orderly server carries through, for a whole plan. */
  ghost predicate Achievable(repo: Repository, plan: Plan, needs: string -> set<string>, live: set<string>) {
    AllNameable(plan.schemas) && TablesOk(repo, plan.objects, needs, live) && CanFinish(repo, plan.objects, needs, live + PendingKeys(plan.objects))
  }

  method ExecutePlan(conn: TimingConn, repo: Repository, plan: Plan)
    returns (ending: Ending, ghost middle: Database, ghost ts: seq<Unit>, ghost us: seq<Unit>, ghost t: Stages)
    requires conn.Contained() && conn.poisonedAt.None?
    requires forall o :: o in plan.objects ==> OwnBodies(repo, o)
    modifies conn
    ensures conn.Contained()
    ensures plan.blocked <==> ending.PlanBlocked?
    ensures ending.PlanBlocked? || ending.Aborted? ==> conn.db == old(conn.db) && conn.issued == old(conn.issued)
    ensures RunLeaves(repo, plan.objects, old(conn.db), middle, conn.db, ts, us)
    ensures ending.Finished? ==> RunCompletes(repo, plan.objects, old(conn.db), conn.db, ts, us)
    ensures ending.FailedWith? ==> ending.errors != []
    ensures conn.poisonedAt.Some? ==> ending.FailedWith? && exists e :: e in ending.errors && e.RollbackFailed?
    ensures Transcribes(repo, plan.objects, old(conn.sent), conn.sent, t)
    ensures ending.Finished? ==> SentChores(BOOTSTRAP + Creations(plan.schemas), old(conn.sent), t.ready)
    ensures old(conn.Orderly() && conn.connected) && !plan.blocked ==> (ending.Finished? <==> Achievable(repo, plan, conn.needs, old(conn.db).live.Keys))
  {
    ghost var calm := conn.Orderly() && conn.connected;
    SentNothing(conn.sent);
    middle, ts, us := conn.db, [], [];
    ghost var todo := Progress(Jobs(repo, Steps(plan.objects)), AtBegin);
    MovesNowhere(todo, conn.sent);
    t := Stages(conn.sent, conn.sent, todo, conn.sent);
    if plan.blocked {
      return PlanBlocked, middle, ts, us, t;
    }
    var result := new ApplyResult();
    var ok := Prepare(conn, plan.schemas, result);
    MovesNowhere(todo, conn.sent);
    t := Stages(conn.sent, conn.sent, todo, conn.sent);
    if !ok {
      SentNothing(conn.sent);
      return Aborted, middle, ts, us, t;
    }
    if result.failed == 0 {
      middle, ts, us, t := RunScripts(conn, repo, plan.objects, result);
    }
    ending := Finish(conn, result);
  }

  /** The transitions and, once all of them are through, the objects. */
  method RunScripts(conn: TimingConn, repo: Repository, objects: seq<PlannedObject>, result: ApplyResult)
    returns (ghost middle: Database, ghost ts: seq<Unit>, ghost us: seq<Unit>, ghost t: Stages)
    requires Ready(conn, result) && result.failed == 0
    requires forall o :: o in objects ==> OwnBodies(repo, o)
    modifies conn, result
    ensures Accounted(conn, result)
    ensures RunLeaves(repo, objects, old(conn.db), middle, conn.db, ts, us)
    ensures result.failed == 0 ==> RunCompletes(repo, objects, old(conn.db), conn.db, ts, us)
    ensures ScriptsSent(repo, objects, t) && t.ready == old(conn.sent) && t.applied == conn.sent && (conn.connected ==> AtRest(t.at))
    ensures old(conn.Orderly() && conn.connected) ==>
              (result.failed == 0 <==> TablesOk(repo, objects, conn.needs, old(conn.db).live.Keys)
                                       && CanFinish(repo, objects, conn.needs, old(conn.db).live.Keys + PendingKeys(objects)))
  {
    us := [];
    ghost var q;
    ts, q := ApplyTransitions(conn, repo, objects, result);
    middle := conn.db;
    t := Stages(old(conn.sent), conn.sent, q, conn.sent);
    if result.failed > 0 {
      return;
    }
    us := ApplyObjects(conn, repo, objects, result);
    t := t.(applied := conn.sent);
  }

  lemma {:induction false} ChoresBoth(a: seq<Request>, b: seq<Request>, c: seq<Request>)
    requires OnlyChores(a, b) && OnlyChores(b, c)
    ensures OnlyChores(a, c)
  {
    var first :| SentChores(first, a, b);
    var second :| SentChores(second, b, c);
    SentChoresOn(a, b, c, first, second);
  }

  datatype MetadataMode = Baseline | RepairChecksum

  /** The objects whose audit row the command (re)writes. */
  predicate Rewritten(mode: MetadataMode, o: PlannedObject) {
    match o.action
    case AdoptExisting => true
    case UpdateExistingModule => mode.RepairChecksum?
    case ReprocessChanged => mode.RepairChecksum?
    case ReprocessChangedBlocked => mode.RepairChecksum?
    case Fail => mode.RepairChecksum?
    case _ => false
  }

  function RewriteOne(mode: MetadataMode, o: PlannedObject): seq<Record> {
    if !Rewritten(mode, o) then [] else [ObjectEntry(o, if o.action.AdoptExisting? then Adopted else Applied)]
  }

  function Rewrites(mode: MetadataMode, objects: seq<PlannedObject>): seq<Record> {
    if objects == [] then [] else Rewrites(mode, objects[..|objects| - 1]) + RewriteOne(mode, objects[|objects| - 1])
  }

  /** Every object is counted as skipped; the rows to write are collected in order. */
  method CollectRewrites(mode: MetadataMode, objects: seq<PlannedObject>, result: ApplyResult) returns (records: seq<Record>)
    modifies result`skipped
    ensures records == Rewrites(mode, objects) && result.skipped == old(result.skipped) + |objects|
  {
    records := [];
    for i := 0 to |objects|
      invariant records == Rewrites(mode, objects[..i]) && result.skipped == old(result.skipped) + i
    {
      var o := objects[i];
      assert objects[..i + 1][..i] == objects[..i];
      result.skipped := result.skipped + 1;
      if o.action.AdoptExisting? {
        records := records + [ObjectEntry(o, Adopted)];
      } else if mode.RepairChecksum?
                && (o.action.UpdateExistingModule? || o.action.ReprocessChanged? || o.action.ReprocessChangedBlocked? || o.action.Fail?) {
        records := records + [ObjectEntry(o, Applied)];
      }
    }
    assert objects[..|objects|] == objects;
  }

  /**
   `baseline` and `repair-checksum` only write object audit rows: no body is ever
   sent, no live object and no migration row changes, whatever happens.
   */
  method ExecuteMetadataPlan(conn: TimingConn, plan: Plan, mode: MetadataMode) returns (ending: Ending)
    requires conn.Contained() && conn.poisonedAt.None?
    modifies conn
    ensures conn.Contained() && conn.issued == old(conn.issued)
    ensures conn.db.live == old(conn.db).live && conn.db.executed == old(conn.db).executed
    ensures conn.db == old(conn.db) || conn.db == Audited(old(conn.db), Rewrites(mode, plan.objects))
    ensures ending.PlanBlocked? <==> plan.blocked && mode.Baseline?
    ensures ending.Finished? ==>
              && conn.db == Audited(old(conn.db), Rewrites(mode, plan.objects))
              && forall r :: r in Rewrites(mode, plan.objects) && r.kind.ObjectRecord? ==> r.key in conn.db.live
    ensures old(conn.Orderly() && conn.connected) && !(plan.blocked && mode.Baseline?)
            && (forall o :: o in plan.objects && Rewritten(mode, o) ==> o.key in old(conn.db).live) ==>
              ending.Finished?
  {
    if plan.blocked && !mode.RepairChecksum? {
      return PlanBlocked;
    }
    var result := new ApplyResult();
    var ok := EnsureTables(conn);
    if !ok {
      return Aborted;
    }
    var records := CollectRewrites(mode, plan.objects, result);
    RewriteMembers(mode, plan.objects);
    var _ := CommitHistory(conn, records, result);
    ending := Finish(conn, result);
  }

  /** In plain words: what exists unmanaged is adopted; to repair also records every managed object whose file or definition moved. */
  lemma {:induction false} RewritesMean(mode: MetadataMode, objects: seq<PlannedObject>, r: Record)
    ensures r in Rewrites(mode, objects) <==>
              exists o :: o in objects && r.key == o.key && r.kind == ObjectRecord && r.digest == o.digest
                          && ((o.action == AdoptExisting && r.event == Adopted)
                              || (mode == RepairChecksum && r.event == Applied
                                  && o.action in {UpdateExistingModule, ReprocessChanged, ReprocessChangedBlocked, Fail}))
  {
    RewriteMembers(mode, objects);
    if r in Rewrites(mode, objects) {
      var o :| o in objects && r in RewriteOne(mode, o);
    }
    if o :| o in objects && r.key == o.key && r.kind == ObjectRecord && r.digest == o.digest
            && ((o.action == AdoptExisting && r.event == Adopted)
                || (mode == RepairChecksum && r.event == Applied && o.action in {UpdateExistingModule, ReprocessChanged, ReprocessChangedBlocked, Fail})) {
      assert r in RewriteOne(mode, o);
    }
  }

  lemma {:induction false} RewriteMembers(mode: MetadataMode, objects: seq<PlannedObject>)
    ensures forall r :: r in Rewrites(mode, objects) <==> exists o :: o in objects && r in RewriteOne(mode, o)
    ensures forall r :: r in Rewrites(mode, objects) ==> r.kind.ObjectRecord?
  {
    if objects != [] {
      var n := |objects| - 1;
      RewriteMembers(mode, objects[..n]);
      assert objects == objects[..n] + [objects[n]];
      forall r | r in Rewrites(mode, objects[..n])
        ensures exists o :: o in objects && r in RewriteOne(mode, o)
      {
        var o :| o in objects[..n] && r in RewriteOne(mode, o);
        assert o in objects;
      }
    }
  }
}
