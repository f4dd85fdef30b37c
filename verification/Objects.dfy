/** The object phase: adoption rows, then the ordered transactional batch, then the modules. */
module Objects {
  import opened Prelude
  import opened Domain
  import opened Server
  import opened Client
  import opened HistoryWrite
  import opened Units
  import opened Modules
  import opened Sorting

  /** Lower ranks are applied first. */
  function KindRank(kind: Kind): nat {
    match kind
    case Types => 0
    case Sequences => 1
    case Tables => 2
    case Synonyms => 3
    case Indexes => 4
    case Views => 5
    case Functions => 6
    case Procedures => 7
    case Triggers => 8
    case UnknownKind => 99
  }

  predicate BatchLe(a: PlannedObject, b: PlannedObject) {
    KindRank(a.kind) < KindRank(b.kind) || (KindRank(a.kind) == KindRank(b.kind) && StringLe(a.key, b.key))
  }

  /** The documented apply order of the kinds. */
  const APPLY_ORDER := [Types, Sequences, Tables, Synonyms, Indexes, Views, Functions, Procedures, Triggers]

  lemma {:induction false} BatchOrdering()
    ensures Ordering(BatchLe)
  {
    forall x, y
      ensures BatchLe(x, y) || BatchLe(y, x)
    {
      StringLeTotal(x.key, y.key);
    }
    forall x, y, z | BatchLe(x, y) && BatchLe(y, z)
      ensures BatchLe(x, z)
    {
      if StringLe(x.key, y.key) && StringLe(y.key, z.key) {
        StringLeTransitive(x.key, y.key, z.key);
      }
    }
  }

  /** In a sorted batch kinds follow the documented order, and objects of one kind their keys. */
  lemma {:induction false} DependencyOrder(batch: seq<PlannedObject>, i: nat, j: nat, a: nat, b: nat)
    requires i < j < |batch| && a < |APPLY_ORDER| && b < |APPLY_ORDER|
    requires |Sort(batch, BatchLe)| == |batch|
    requires Sort(batch, BatchLe)[i].kind == APPLY_ORDER[a] && Sort(batch, BatchLe)[j].kind == APPLY_ORDER[b]
    ensures a <= b && (a == b ==> Ascends(Sort(batch, BatchLe)[i].key, Sort(batch, BatchLe)[j].key))
  {
    BatchOrdering();
    SortSorts(batch, BatchLe);
    StringLeMeans(Sort(batch, BatchLe)[i].key, Sort(batch, BatchLe)[j].key);
  }

  predicate ShouldApply(o: PlannedObject) {
    o.action.CreateObject? || o.action.UpdateExistingModule?
  }

  predicate ShouldCountSkip(o: PlannedObject) {
    o.action.SkipUnchanged? || o.action.ReprocessChanged? || o.action.ReprocessChangedBlocked?
  }

  /** A changed object that is no table has no transition script to bring it up to date. */
  predicate FailsClosed(o: PlannedObject) {
    o.action.ReprocessChanged? && o.transitions == [] && !o.kind.Tables?
  }

  function AdoptRecords(objects: seq<PlannedObject>): seq<Record> {
    if objects == [] then []
    else AdoptRecords(objects[..|objects| - 1])
         + if objects[|objects| - 1].action.AdoptExisting? then [ObjectEntry(objects[|objects| - 1], Adopted)] else []
  }

  function Batch(objects: seq<PlannedObject>, transactional: bool): seq<PlannedObject> {
    if objects == [] then []
    else Batch(objects[..|objects| - 1], transactional)
         + if ShouldApply(objects[|objects| - 1]) && IsTransactional(objects[|objects| - 1].kind) == transactional
           then [objects[|objects| - 1]] else []
  }

  lemma {:induction false} BatchMembers(objects: seq<PlannedObject>)
    ensures forall o, t :: o in Batch(objects, t) <==> o in objects && ShouldApply(o) && IsTransactional(o.kind) == t
    ensures forall r :: r in AdoptRecords(objects) <==> exists o :: o in objects && o.action.AdoptExisting? && r == ObjectEntry(o, Adopted)
  {
    if objects != [] {
      var n := |objects| - 1;
      BatchMembers(objects[..n]);
      assert objects == objects[..n] + [objects[n]];
      forall r | r in AdoptRecords(objects[..n])
        ensures exists o :: o in objects && o.action.AdoptExisting? && r == ObjectEntry(o, Adopted)
      {
        var o :| o in objects[..n] && o.action.AdoptExisting? && r == ObjectEntry(o, Adopted);
        assert o in objects;
      }
    }
  }

  /** By kind: what is created or updated goes to the transactional batch if it is no module and known, else to the modules. */
  lemma {:induction false} BatchKinds(objects: seq<PlannedObject>, o: PlannedObject)
    ensures o in Batch(objects, true) <==>
              && o in objects && (o.action == CreateObject || o.action == UpdateExistingModule)
              && o.kind in {Tables, Indexes, Types, Sequences, Synonyms}
    ensures o in Batch(objects, false) <==>
              && o in objects && (o.action == CreateObject || o.action == UpdateExistingModule)
              && o.kind in {Views, Functions, Procedures, Triggers, UnknownKind}
  {
    BatchMembers(objects);
  }

  /** `us` are the units of the first objects of `sorted`, and at most one attempt more. */
  ghost predicate RunOrder(repo: Repository, sorted: seq<PlannedObject>, us: seq<Unit>) {
    exists k: nat :: k <= |sorted| && StoppedAt(repo, sorted, us, k)
  }

  ghost predicate StoppedAt(repo: Repository, sorted: seq<PlannedObject>, us: seq<Unit>, k: nat)
    requires k <= |sorted|
  {
    && k <= |us| <= k + 1 && Flushed(repo, sorted[..k], us[..k])
    && (|us| == k + 1 ==> k < |sorted| && UnitFor(repo, sorted[k], us[k]))
  }

  /** Every object of `batch` has its unit among `us`. */
  ghost predicate Included(repo: Repository, batch: seq<PlannedObject>, us: seq<Unit>) {
    forall o :: o in batch ==> Sound(repo, o) && ObjectUnit(repo, o) in us
  }

  lemma {:induction false} FlushedEach(repo: Repository, done: seq<PlannedObject>, us: seq<Unit>, batch: seq<PlannedObject>)
    requires Flushed(repo, done, us) && forall o :: o in done ==> o in batch
    ensures EachFor(repo, batch, us)
    ensures (forall o :: o in batch ==> o in done) ==> Included(repo, batch, us)
  {
    forall u | u in us
      ensures exists o :: o in batch && UnitFor(repo, o, u)
    {
      var k :| 0 <= k < |us| && us[k] == u;
      assert done[k] in batch && UnitFor(repo, done[k], u);
    }
  }

  lemma {:induction false} FlushedOne(repo: Repository, done: seq<PlannedObject>, us: seq<Unit>, o: PlannedObject)
    requires Flushed(repo, done, us) && Sound(repo, o)
    ensures Flushed(repo, done + [o], us + [ObjectUnit(repo, o)])
  {
  }

  lemma {:induction false} StoppedEach(repo: Repository, done: seq<PlannedObject>, us: seq<Unit>, batch: seq<PlannedObject>, attempt: seq<Unit>, o: PlannedObject)
    requires Flushed(repo, done, us) && (forall o :: o in done ==> o in batch) && o in batch
    requires forall u :: u in attempt ==> UnitFor(repo, o, u)
    ensures EachFor(repo, batch, us + attempt)
  {
    FlushedEach(repo, done, us, batch);
    EachForAppend(repo, batch, us, attempt, o);
  }

  lemma {:induction false} StoppedHere(repo: Repository, sorted: seq<PlannedObject>, k: nat, us: seq<Unit>, attempt: seq<Unit>)
    requires k <= |sorted| && Flushed(repo, sorted[..k], us) && |attempt| <= 1
    requires attempt != [] ==> k < |sorted| && UnitFor(repo, sorted[k], attempt[0])
    ensures RunOrder(repo, sorted, us + attempt)
  {
    assert (us + attempt)[..k] == us;
    assert StoppedAt(repo, sorted, us + attempt, k);
  }

  function KeysOf(xs: seq<PlannedObject>): set<string> {
    set o | o in xs :: o.key
  }

  /** Each object finds its needs among what was there and what came before it. */
  ghost predicate InTurn(xs: seq<PlannedObject>, needs: string -> set<string>, live: set<string>) {
    forall k :: 0 <= k < |xs| ==> TurnAt(xs, needs, live, k)
  }

  ghost predicate TurnAt(xs: seq<PlannedObject>, needs: string -> set<string>, live: set<string>, k: int)
    requires 0 <= k < |xs|
  {
    needs(xs[k].key) <= live + KeysOf(xs[..k])
  }

  ghost predicate AllSound(repo: Repository, xs: seq<PlannedObject>) {
    forall k :: 0 <= k < |xs| ==> Sound(repo, xs[k])
  }

  /** On an orderly server: the first `i` objects of the batch are there, each in its turn. */
  ghost predicate Flushing(repo: Repository, sorted: seq<PlannedObject>, i: nat, needs: string -> set<string>, base: set<string>, live: set<string>) {
    && i <= |sorted| && AllSound(repo, sorted[..i]) && InTurn(sorted[..i], needs, base) && live == base + KeysOf(sorted[..i])
  }

  lemma {:induction false} FlushingOne(repo: Repository, sorted: seq<PlannedObject>, i: nat, needs: string -> set<string>, base: set<string>,
                                       live: set<string>, live': set<string>)
    requires i < |sorted| && Flushing(repo, sorted, i, needs, base, live) && Sound(repo, sorted[i])
    requires needs(sorted[i].key) <= live && live' == live + {sorted[i].key}
    ensures Flushing(repo, sorted, i + 1, needs, base, live')
  {
    TakeOneMore(sorted, i);
    var next := sorted[..i + 1];
    assert KeysOf(next) == KeysOf(sorted[..i]) + {sorted[i].key};
    forall k | 0 <= k < |next|
      ensures TurnAt(next, needs, base, k)
    {
      assert next[..k] == sorted[..k];
      if k < i {
        assert TurnAt(sorted[..i], needs, base, k);
        assert sorted[..i][..k] == sorted[..k] && sorted[..i][k] == sorted[k];
      }
    }
  }

  lemma {:induction false} FlushingStuck(repo: Repository, sorted: seq<PlannedObject>, i: nat, needs: string -> set<string>, base: set<string>, live: set<string>)
    requires i < |sorted| && Flushing(repo, sorted, i, needs, base, live) && (Sound(repo, sorted[i]) ==> !(needs(sorted[i].key) <= live))
    ensures !(AllSound(repo, sorted) && InTurn(sorted, needs, base))
  {
    if InTurn(sorted, needs, base) {
      assert TurnAt(sorted, needs, base, i);
    }
  }

  /** Executes the batch in rank order and stops at the first failure. */
  method FlushTx(conn: TimingConn, repo: Repository, batch: seq<PlannedObject>, result: ApplyResult)
    returns (ghost us: seq<Unit>)
    requires Ready(conn, result) && result.failed == 0
    requires forall o :: o in batch ==> OwnBodies(repo, o)
    modifies conn, result
    ensures Accounted(conn, result)
    ensures conn.db == ApplyUnits(old(conn.db), us) && EachFor(repo, batch, us) && RunOrder(repo, Sort(batch, BatchLe), us)
    ensures result.failed == 0 ==> conn.poisonedAt.None? && conn.tx.Closed? && Included(repo, batch, us)
    ensures ObjectWork(repo, old(conn.sent), conn.sent)
    ensures old(conn.Orderly() && conn.connected) ==>
              if result.failed == 0
              then conn.connected && Flushing(repo, Sort(batch, BatchLe), |Sort(batch, BatchLe)|, conn.needs, old(conn.db).live.Keys, conn.db.live.Keys)
              else !(AllSound(repo, Sort(batch, BatchLe)) && InTurn(Sort(batch, BatchLe), conn.needs, old(conn.db).live.Keys))
  {
    ghost var calm := conn.Orderly() && conn.connected;
    var sorted := Sort(batch, BatchLe);
    SortKeeps(batch, BatchLe);
    us := FlushAll(conn, repo, sorted, result, calm);
    FlushEnds(result.failed == 0, repo, batch, sorted, us, old(conn.db), conn.db, old(conn.sent), conn.sent, calm, conn.needs, conn.connected);
  }

  /** Object after object, up to the first failure. */
  method FlushAll(conn: TimingConn, repo: Repository, sorted: seq<PlannedObject>, result: ApplyResult, ghost calm: bool)
    returns (ghost us: seq<Unit>)
    requires Ready(conn, result) && result.failed == 0 && (calm ==> conn.Orderly() && conn.connected)
    requires forall o :: o in sorted ==> OwnBodies(repo, o)
    modifies conn, result
    ensures Accounted(conn, result) && (result.failed == 0 ==> Ready(conn, result))
    ensures Flushes(result.failed == 0, repo, sorted, |sorted|, us, old(conn.db), conn.db, old(conn.sent), conn.sent, calm, conn.needs, conn.connected)
  {
    us := [];
    FlushSetsOut(repo, sorted, conn.db, conn.sent, calm, conn.needs, conn.connected);
    var i := 0;
    while i < |sorted|
      invariant 0 <= i <= |sorted| && result.failed == 0 && Ready(conn, result) && (calm ==> conn.Orderly())
      invariant Flushes(true, repo, sorted, i, us, old(conn.db), conn.db, old(conn.sent), conn.sent, calm, conn.needs, conn.connected)
    {
      us := FlushNext(conn, repo, sorted, i, result, us, old(conn.db), old(conn.sent), calm);
      if result.failed > 0 {
        return;
      }
      i := i + 1;
    }
  }

  /** Where the flush stands: the first `i` objects done, or stopped for good. */
  ghost predicate Flushes(ok: bool, repo: Repository, sorted: seq<PlannedObject>, i: nat, us: seq<Unit>, before: Database, after: Database,
                          sent0: seq<Request>, sent: seq<Request>, calm: bool, needs: string -> set<string>, connected: bool) {
    && Did(repo, before, sent0, us, after, sent)
    && if ok then
         && i <= |sorted| && Flushed(repo, sorted[..i], us)
         && (calm ==> connected && Flushing(repo, sorted, i, needs, before.live.Keys, after.live.Keys))
       else
         && EachFor(repo, sorted, us) && RunOrder(repo, sorted, us)
         && (calm ==> !(AllSound(repo, sorted) && InTurn(sorted, needs, before.live.Keys)))
  }

  lemma {:induction false} FlushSetsOut(repo: Repository, sorted: seq<PlannedObject>, db: Database, sent: seq<Request>, calm: bool,
                                        needs: string -> set<string>, connected: bool)
    requires calm ==> connected
    ensures Flushes(true, repo, sorted, 0, [], db, db, sent, sent, calm, needs, connected)
  {
    assert KeysOf(sorted[..0]) == {};
  }

  method FlushNext(conn: TimingConn, repo: Repository, sorted: seq<PlannedObject>, i: nat, result: ApplyResult, ghost done: seq<Unit>,
                   ghost db0: Database, ghost sent0: seq<Request>, ghost calm: bool)
    returns (ghost us: seq<Unit>)
    requires i < |sorted| && OwnBodies(repo, sorted[i]) && Ready(conn, result) && result.failed == 0 && (calm ==> conn.Orderly())
    requires Flushes(true, repo, sorted, i, done, db0, conn.db, sent0, conn.sent, calm, conn.needs, conn.connected)
    modifies conn, result
    ensures Accounted(conn, result) && (result.failed == 0 ==> Ready(conn, result))
    ensures Flushes(result.failed == 0, repo, sorted, i + 1, us, db0, conn.db, sent0, conn.sent, calm, conn.needs, conn.connected)
  {
    ghost var db, sent := conn.db, conn.sent;
    ghost var attempt := ExecObject(conn, repo, sorted[i], result);
    DidMore(repo, db0, sent0, done, db, sent, attempt, conn.db, conn.sent);
    us := done + attempt;
    if result.failed > 0 {
      if calm {
        FlushingStuck(repo, sorted, i, conn.needs, db0.live.Keys, db.live.Keys);
      }
      StoppedEach(repo, sorted[..i], done, sorted, attempt, sorted[i]);
      StoppedHere(repo, sorted, i, done, attempt);
    } else {
      if calm {
        FlushingOne(repo, sorted, i, conn.needs, db0.live.Keys, db.live.Keys, conn.db.live.Keys);
      }
      TakeOneMore(sorted, i);
      FlushedOne(repo, sorted[..i], done, sorted[i]);
    }
  }

  lemma {:induction false} FlushEnds(ok: bool, repo: Repository, batch: seq<PlannedObject>, sorted: seq<PlannedObject>, us: seq<Unit>, before: Database, after: Database,
                                     sent0: seq<Request>, sent: seq<Request>, calm: bool, needs: string -> set<string>, connected: bool)
    requires Flushes(ok, repo, sorted, |sorted|, us, before, after, sent0, sent, calm, needs, connected) && forall o :: o in sorted <==> o in batch
    ensures after == ApplyUnits(before, us) && ObjectWork(repo, sent0, sent) && EachFor(repo, batch, us) && RunOrder(repo, sorted, us)
    ensures ok ==> Included(repo, batch, us)
    ensures calm ==> if ok then connected && Flushing(repo, sorted, |sorted|, needs, before.live.Keys, after.live.Keys)
                     else !(AllSound(repo, sorted) && InTurn(sorted, needs, before.live.Keys))
  {
    if ok {
      assert sorted[..|sorted|] == sorted;
      StoppedHere(repo, sorted, |sorted|, us, []);
      assert us + [] == us;
      FlushedEach(repo, sorted, us, batch);
    } else {
      EachForSubset(repo, sorted, batch, [], us);
      assert [] + us == us;
    }
  }

  /** The first `k` units are those of the transactional batch, in rank order; the modules follow only once all of them are there. */
  ghost predicate ModulesLast(repo: Repository, txs: seq<PlannedObject>, modules: seq<PlannedObject>, us: seq<Unit>, k: int) {
    && 0 <= k <= |us| && RunOrder(repo, Sort(txs, BatchLe), us[..k]) && EachFor(repo, modules, us[k..])
    && (k < |us| ==> Included(repo, txs, us[..k]))
  }

  /** The objects `modules` can reach from `live`, and whether that is all of them. */
  ghost predicate AllReach(modules: seq<PlannedObject>, needs: string -> set<string>, live: set<string>) {
    exists reached :: Least(live, modules, needs, reached) && forall o :: o in modules ==> needs(o.key) <= reached
  }

  /** What an orderly server can carry through: the transactional batch in its order, and on top of it every module in some order. */
  ghost predicate Feasible(repo: Repository, txs: seq<PlannedObject>, modules: seq<PlannedObject>, needs: string -> set<string>, live: set<string>) {
    && AllSound(repo, Sort(txs, BatchLe)) && InTurn(Sort(txs, BatchLe), needs, live)
    && Retriable(repo, modules, needs, live + KeysOf(Sort(txs, BatchLe)))
  }

  ghost predicate Retriable(repo: Repository, modules: seq<PlannedObject>, needs: string -> set<string>, live: set<string>) {
    (forall o :: o in modules ==> Sound(repo, o)) && AllReach(Sort(modules, BatchLe), needs, live)
  }

  lemma {:induction false} AfterFlush(repo: Repository, txs: seq<PlannedObject>, modules: seq<PlannedObject>, needs: string -> set<string>,
                                      base: set<string>, live: set<string>)
    requires Flushing(repo, Sort(txs, BatchLe), |Sort(txs, BatchLe)|, needs, base, live)
    ensures Feasible(repo, txs, modules, needs, base) <==> Retriable(repo, modules, needs, live)
  {
    var sorted := Sort(txs, BatchLe);
    assert sorted[..|sorted|] == sorted;
  }

  /** On a predictable server the retry loop leaves nothing over exactly if every module can be reached. */
  lemma {:induction false} NothingLeft(repo: Repository, pending: seq<PlannedObject>, us: seq<Unit>, applied: seq<PlannedObject>, left: seq<PlannedObject>,
                                       needs: string -> set<string>, base: set<string>, live: set<string>)
    requires Reached(repo, pending, us, applied, left) && Finished(repo, pending, us, applied, needs, base, live) && Stuck(left, needs, live)
    ensures left == [] <==> AllReach(pending, needs, base)
  {
    SharedMembers(pending, applied, left);
    if left == [] {
      assert Least(base, pending, needs, live);
    } else if reached :| Least(base, pending, needs, reached) && forall o :: o in pending ==> needs(o.key) <= reached {
      LeastWhateverTheOrder(base, pending, pending, needs, reached, live);
      assert left[0] in left && left[0] in pending;
    }
  }

  /** The modules, sorted and retried. */
  method RunModules(conn: TimingConn, repo: Repository, batch: seq<PlannedObject>, result: ApplyResult)
    returns (ghost us: seq<Unit>)
    requires Ready(conn, result) && result.failed == 0
    requires forall o :: o in batch ==> OwnBodies(repo, o)
    modifies conn, result
    ensures Accounted(conn, result)
    ensures conn.db == ApplyUnits(old(conn.db), us) && EachFor(repo, batch, us) && ObjectWork(repo, old(conn.sent), conn.sent)
    ensures result.failed == 0 ==> Included(repo, batch, us)
    ensures old(conn.Orderly() && conn.connected) ==>
              (result.failed == 0 <==> Retriable(repo, batch, conn.needs, old(conn.db).live.Keys))
  {
    ghost var calm := conn.Orderly() && conn.connected;
    var sorted := Sort(batch, BatchLe);
    SortKeeps(batch, BatchLe);
    ghost var applied, left;
    us, applied, left := ApplyModules(conn, repo, sorted, result);
    EachForSubset(repo, sorted, batch, [], us);
    assert [] + us == us;
    if conn.poisonedAt.None? {
      SharedMembers(sorted, applied, left);
      assert result.failed == |left|;
    }
    if calm && forall o :: o in sorted ==> Sound(repo, o) {
      NothingLeft(repo, sorted, us, applied, left, conn.needs, old(conn.db).live.Keys, conn.db.live.Keys);
    }
  }

  lemma {:induction false} OnlyTransactional(repo: Repository, txs: seq<PlannedObject>, modules: seq<PlannedObject>, us: seq<Unit>)
    requires RunOrder(repo, Sort(txs, BatchLe), us)
    ensures ModulesLast(repo, txs, modules, us, |us|)
  {
    assert us[..|us|] == us;
  }

  lemma {:induction false} ThenModules(repo: Repository, txs: seq<PlannedObject>, modules: seq<PlannedObject>, us: seq<Unit>, vs: seq<Unit>)
    requires RunOrder(repo, Sort(txs, BatchLe), us) && EachFor(repo, txs, us) && Included(repo, txs, us) && EachFor(repo, modules, vs)
    ensures ModulesLast(repo, txs, modules, us + vs, |us|) && EachFor(repo, txs + modules, us + vs)
    ensures Included(repo, modules, vs) ==> Included(repo, txs + modules, us + vs)
  {
    assert (us + vs)[..|us|] == us && (us + vs)[|us|..] == vs;
    EachForWider(repo, txs, modules, us);
    EachForSubset(repo, modules, txs + modules, us, vs);
  }

  lemma {:induction false} NothingYet(repo: Repository, txs: seq<PlannedObject>, modules: seq<PlannedObject>)
    ensures ModulesLast(repo, txs, modules, [], 0)
  {
    StoppedHere(repo, Sort(txs, BatchLe), 0, [], []);
  }

  /** The transactional batch, then the modules. */
  method ApplyBoth(conn: TimingConn, repo: Repository, txBatch: seq<PlannedObject>, moduleBatch: seq<PlannedObject>, result: ApplyResult)
    returns (ghost us: seq<Unit>, ghost k: nat)
    requires Ready(conn, result) && result.failed == 0
    requires forall o :: o in txBatch + moduleBatch ==> OwnBodies(repo, o)
    modifies conn, result
    ensures Accounted(conn, result)
    ensures conn.db == ApplyUnits(old(conn.db), us) && EachFor(repo, txBatch + moduleBatch, us) && ModulesLast(repo, txBatch, moduleBatch, us, k)
    ensures result.failed == 0 ==> Included(repo, txBatch + moduleBatch, us)
    ensures ObjectWork(repo, old(conn.sent), conn.sent)
    ensures old(conn.Orderly() && conn.connected) ==>
              (result.failed == 0 <==> Feasible(repo, txBatch, moduleBatch, conn.needs, old(conn.db).live.Keys))
  {
    ghost var calm := conn.Orderly() && conn.connected;
    us := FlushTx(conn, repo, txBatch, result);
    k := |us|;
    OnlyTransactional(repo, txBatch, moduleBatch, us);
    EachForWider(repo, txBatch, moduleBatch, us);
    if result.failed > 0 {
      return;
    }
    if calm {
      AfterFlush(repo, txBatch, moduleBatch, conn.needs, old(conn.db).live.Keys, conn.db.live.Keys);
    }
    assert calm ==> conn.Orderly() && conn.connected;
    ghost var db, sent := conn.db, conn.sent;
    ghost var modules := RunModules(conn, repo, moduleBatch, result);
    DidMore(repo, old(conn.db), old(conn.sent), us, db, sent, modules, conn.db, conn.sent);
    ThenModules(repo, txBatch, moduleBatch, us, modules);
    us := us + modules;
  }

  /** Adoption first, then the transactional batch, then the modules. */
  ghost predicate InOrder(repo: Repository, objects: seq<PlannedObject>, us: seq<Unit>) {
    us != [] ==>
      && us[0] == Audit(AdoptRecords(objects)) && EachFor(repo, Batch(objects, true) + Batch(objects, false), us[1..])
      && exists k :: ModulesLast(repo, Batch(objects, true), Batch(objects, false), us[1..], k)
  }

  /** The exact condition for the whole object phase on an orderly server. */
  ghost predicate CanFinish(repo: Repository, objects: seq<PlannedObject>, needs: string -> set<string>, live: set<string>) {
    && (forall o :: o in objects ==> !FailsClosed(o)) && (forall o :: o in objects && o.action.AdoptExisting? ==> o.key in live)
    && Feasible(repo, Batch(objects, true), Batch(objects, false), needs, live)
  }

  lemma {:induction false} AdoptedAreLive(objects: seq<PlannedObject>, live: set<string>)
    ensures (forall r :: r in AdoptRecords(objects) ==> r.key in live) <==> forall o :: o in objects && o.action.AdoptExisting? ==> o.key in live
  {
    BatchMembers(objects);
    if forall r :: r in AdoptRecords(objects) ==> r.key in live {
      forall o | o in objects && o.action.AdoptExisting?
        ensures o.key in live
      {
        assert ObjectEntry(o, Adopted) in AdoptRecords(objects);
      }
    }
  }

  /** Nothing was left out. */
  ghost predicate AllIn(repo: Repository, objects: seq<PlannedObject>, us: seq<Unit>) {
    && us != []
    && (forall o :: o in objects ==> !FailsClosed(o))
    && Included(repo, Batch(objects, true) + Batch(objects, false), us[1..])
  }

  method ApplyObjects(conn: TimingConn, repo: Repository, objects: seq<PlannedObject>, result: ApplyResult)
    returns (ghost us: seq<Unit>)
    requires Ready(conn, result) && result.failed == 0
    requires forall o :: o in objects ==> OwnBodies(repo, o)
    modifies conn, result
    ensures Accounted(conn, result)
    ensures conn.db == ApplyUnits(old(conn.db), us) && InOrder(repo, objects, us)
    ensures result.failed == 0 ==>
              && AllIn(repo, objects, us)
              && forall o :: o in objects && o.action.AdoptExisting? ==> o.key in old(conn.db).live
    ensures ObjectWork(repo, old(conn.sent), conn.sent)
    ensures old(conn.Orderly() && conn.connected) ==> (result.failed == 0 <==> CanFinish(repo, objects, conn.needs, old(conn.db).live.Keys))
  {
    us := [];
    var refused, adopted, txBatch, moduleBatch := SortOut(objects, result);
    if refused {
      return;
    }
    AdoptedAreLive(objects, conn.db.live.Keys);
    us := ApplyBatches(conn, repo, objects, adopted, txBatch, moduleBatch, result);
  }

  /** Deals the objects out by their actions; a changed object that only a transition could update, and that is no table, is an error. */
  method SortOut(objects: seq<PlannedObject>, result: ApplyResult)
    returns (refused: bool, adopted: seq<Record>, txBatch: seq<PlannedObject>, moduleBatch: seq<PlannedObject>)
    modifies result`skipped, result`failed, result`errors
    ensures refused <==> exists o :: o in objects && FailsClosed(o)
    ensures if refused then result.failed == old(result.failed) + 1 && |result.errors| == |old(result.errors)| + 1
            else result.failed == old(result.failed) && result.errors == old(result.errors)
    ensures old(result.errors) <= result.errors
    ensures !refused ==> adopted == AdoptRecords(objects) && txBatch == Batch(objects, true) && moduleBatch == Batch(objects, false)
  {
    adopted, txBatch, moduleBatch := [], [], [];
    var i := 0;
    while i < |objects|
      invariant 0 <= i <= |objects|
      invariant result.failed == old(result.failed) && result.errors == old(result.errors)
      invariant txBatch == Batch(objects[..i], true) && moduleBatch == Batch(objects[..i], false)
      invariant adopted == AdoptRecords(objects[..i])
      invariant forall k :: 0 <= k < i ==> !FailsClosed(objects[k])
    {
      var o := objects[i];
      assert objects[..i + 1][..i] == objects[..i];
      if o.action.AdoptExisting? {
        result.skipped := result.skipped + 1;
        adopted := adopted + [ObjectEntry(o, Adopted)];
      } else if FailsClosed(o) {
        result.PushError(StatementFailed(o.key));
        return true, adopted, txBatch, moduleBatch;
      } else if ShouldApply(o) {
        if IsTransactional(o.kind) {
          txBatch := txBatch + [o];
        } else {
          moduleBatch := moduleBatch + [o];
        }
      } else if ShouldCountSkip(o) {
        result.skipped := result.skipped + 1;
      }
      i := i + 1;
    }
    assert objects[..i] == objects;
    return false, adopted, txBatch, moduleBatch;
  }

  lemma {:induction false} AdoptionWork(repo: Repository, objects: seq<PlannedObject>, before: seq<Request>, after: seq<Request>)
    requires SentOnly(Insert(AdoptRecords(objects)), before, after)
    ensures ObjectWork(repo, before, after)
  {
    BatchMembers(objects);
  }

  method ApplyBatches(conn: TimingConn, repo: Repository, ghost objects: seq<PlannedObject>, adopted: seq<Record>,
                      txBatch: seq<PlannedObject>, moduleBatch: seq<PlannedObject>, result: ApplyResult)
    returns (ghost us: seq<Unit>)
    requires Ready(conn, result) && result.failed == 0
    requires forall o :: o in objects ==> OwnBodies(repo, o)
    requires txBatch == Batch(objects, true) && moduleBatch == Batch(objects, false) && adopted == AdoptRecords(objects)
    modifies conn, result
    ensures Accounted(conn, result)
    ensures conn.db == ApplyUnits(old(conn.db), us) && InOrder(repo, objects, us)
    ensures result.failed == 0 ==> us != [] && Included(repo, txBatch + moduleBatch, us[1..])
    ensures result.failed == 0 ==> forall r :: r in adopted ==> r.key in old(conn.db).live
    ensures ObjectWork(repo, old(conn.sent), conn.sent)
    ensures old(conn.Orderly() && conn.connected) ==>
              (result.failed == 0 <==> (forall r :: r in adopted ==> r.key in old(conn.db).live.Keys)
                                       && Feasible(repo, txBatch, moduleBatch, conn.needs, old(conn.db).live.Keys))
  {
    BatchMembers(objects);
    var ok := CommitHistory(conn, adopted, result);
    AdoptionWork(repo, objects, old(conn.sent), conn.sent);
    ApplyOneMore(old(conn.db), [], Audit(adopted));
    us := if ok || conn.db != old(conn.db) then [Audit(adopted)] else [];
    NothingYet(repo, txBatch, moduleBatch);
    if !ok {
      assert us != [] ==> us[1..] == [];
      return;
    }
    ghost var sent := conn.sent;
    ghost var rest, k;
    rest, k := ApplyBoth(conn, repo, txBatch, moduleBatch, result);
    ObjectWorkOn(repo, old(conn.sent), sent, conn.sent);
    ApplyAppend(old(conn.db), [Audit(adopted)], rest);
    us := [Audit(adopted)] + rest;
    assert us[1..] == rest;
  }
}
