/**
 Executing object scripts, and the module loop that retries until a pass makes no
 progress. When a module succeeds exactly if its needs are met, the loop computes
 the least set of objects closed under the pending modules.
 */
module Modules {
  import opened Prelude
  import opened Domain
  import opened Server
  import opened Client
  import opened HistoryWrite
  import opened Units

  /** What an attempt at `o` may commit: its unit, or the bare effects of a body that commits the transaction. */
  ghost predicate UnitFor(repo: Repository, o: PlannedObject, u: Unit) {
    && VerifiedBody(repo, o.script, o.digest).Some?
    && var full := ObjectUnit(repo, o);
       if full.body.use.LeavesOpen? then u == full else full.body.use.CommitsIt? && u == Script(full.body, [])
  }

  /** `o`'s script is readable and leaves the transaction open. */
  ghost predicate Sound(repo: Repository, o: PlannedObject) {
    VerifiedBody(repo, o.script, o.digest).Some? && ObjectUnit(repo, o).body.use.LeavesOpen?
  }

  ghost predicate EachFor(repo: Repository, pending: seq<PlannedObject>, us: seq<Unit>) {
    forall u :: u in us ==> exists o :: o in pending && UnitFor(repo, o, u)
  }

  lemma {:induction false} OwnObjectRecords(repo: Repository, o: PlannedObject, body: Body)
    requires body.key == o.key
    ensures OwnRecords(body, ObjectRecords(repo, o))
  {
  }

  lemma {:induction false} LiveAfterScript(db: Database, body: Body, records: seq<Record>)
    ensures Recorded(db, body, records).live.Keys == db.live.Keys + {body.key}
  {
  }

  /** The units an attempt committed, read off the database before and after it. */
  ghost function AttemptUnits(repo: Repository, o: PlannedObject, before: Database, after: Database): seq<Unit>
    requires VerifiedBody(repo, o.script, o.digest).Some?
  {
    var full := ObjectUnit(repo, o);
    if after == before then [] else if full.body.use.LeavesOpen? then [full] else [Script(full.body, [])]
  }

  lemma {:induction false} AttemptCommits(repo: Repository, o: PlannedObject, before: Database, after: Database)
    requires VerifiedBody(repo, o.script, o.digest).Some?
    requires Committed(before, after, ObjectUnit(repo, o).body, ObjectRecords(repo, o))
    ensures after == ApplyUnits(before, AttemptUnits(repo, o, before, after))
    ensures forall u :: u in AttemptUnits(repo, o, before, after) ==> UnitFor(repo, o, u)
    ensures after == Recorded(before, ObjectUnit(repo, o).body, ObjectRecords(repo, o)) && Sound(repo, o) ==>
              AttemptUnits(repo, o, before, after) == [ObjectUnit(repo, o)]
  {
  }

  method ExecObject(conn: TimingConn, repo: Repository, o: PlannedObject, result: ApplyResult)
    returns (ghost us: seq<Unit>)
    requires Ready(conn, result) && OwnBodies(repo, o)
    modifies conn, result
    ensures Accounted(conn, result) && result.skipped == old(result.skipped)
    ensures conn.db == ApplyUnits(old(conn.db), us) && |us| <= 1 && forall u :: u in us ==> UnitFor(repo, o, u)
    ensures result.failed == old(result.failed) ==>
              && result.errors == old(result.errors) && result.applied == old(result.applied) + 1
              && conn.poisonedAt.None? && conn.tx.Closed?
              && Sound(repo, o) && us == [ObjectUnit(repo, o)]
    ensures result.failed != old(result.failed) ==>
              && result.failed > old(result.failed) && result.applied == old(result.applied)
              && result.errors == old(result.errors) + Report(o.key, conn.poisonedAt.Some?)
    ensures old(conn.Orderly() && conn.connected) && Sound(repo, o) ==>
              && conn.connected && conn.poisonedAt.None? && (result.failed != old(result.failed) ==> us == [])
              && (result.failed == old(result.failed) <==> conn.needs(o.key) <= old(conn.db).live.Keys)
              && conn.db.live.Keys == old(conn.db).live.Keys + (if conn.needs(o.key) <= old(conn.db).live.Keys then {o.key} else {})
    ensures ObjectWork(repo, old(conn.sent), conn.sent)
  {
    var body := VerifiedBody(repo, o.script, o.digest);
    if body.None? {
      result.PushError(StatementFailed(o.key));
      return [];
    }
    var records := ObjectRecords(repo, o);
    OwnObjectRecords(repo, o, body.value);
    LiveAfterScript(conn.db, body.value, records);
    var ok;
    ghost var q;
    ok, q := ApplyInTx(conn, body.value, records, result, o.key, [Job(o.key, body.value, records)]);
    OneObject(repo, o, body.value, old(conn.sent), conn.sent, q);
    us := AttemptUnits(repo, o, old(conn.db), conn.db);
    AttemptCommits(repo, o, old(conn.db), conn.db);
    if ok {
      result.applied := result.applied + 1;
    }
  }

  /** `us` are the units of `done`, one each and in order. */
  ghost predicate Flushed(repo: Repository, done: seq<PlannedObject>, us: seq<Unit>) {
    && |us| == |done|
    && forall k :: 0 <= k < |done| ==> Sound(repo, done[k]) && us[k] == ObjectUnit(repo, done[k])
  }

  lemma {:induction false} FlushedAppend(repo: Repository, a: seq<PlannedObject>, us: seq<Unit>, b: seq<PlannedObject>, vs: seq<Unit>)
    requires Flushed(repo, a, us) && Flushed(repo, b, vs)
    ensures Flushed(repo, a + b, us + vs)
  {
  }

  /** Closed under the pending modules: whatever has its needs inside is inside. */
  ghost predicate ClosedUnder(objects: set<string>, pending: seq<PlannedObject>, needs: string -> set<string>) {
    forall o :: o in pending && needs(o.key) <= objects ==> o.key in objects
  }

  /** `objects` is the least set that contains `base` and is closed under the pending modules. */
  ghost predicate Least(base: set<string>, pending: seq<PlannedObject>, needs: string -> set<string>, objects: set<string>) {
    && base <= objects && ClosedUnder(objects, pending, needs)
    && Minimal(base, pending, needs, objects)
  }

  ghost predicate Minimal(base: set<string>, pending: seq<PlannedObject>, needs: string -> set<string>, objects: set<string>) {
    forall other :: base <= other && ClosedUnder(other, pending, needs) ==> objects <= other
  }

  /** The outcome does not depend on the order of the batch. */
  lemma {:induction false} LeastWhateverTheOrder(base: set<string>, xs: seq<PlannedObject>, ys: seq<PlannedObject>,
                              needs: string -> set<string>, fromXs: set<string>, fromYs: set<string>)
    requires multiset(xs) == multiset(ys)
    requires Least(base, xs, needs, fromXs) && Least(base, ys, needs, fromYs)
    ensures fromXs == fromYs
  {
    forall o: PlannedObject
      ensures o in xs <==> o in ys
    {
      assert o in multiset(xs) <==> o in multiset(ys);
    }
    assert ClosedUnder(fromXs, ys, needs) && ClosedUnder(fromYs, xs, needs);
  }

  lemma {:induction false} StaysMinimal(base: set<string>, pending: seq<PlannedObject>, needs: string -> set<string>, objects: set<string>, o: PlannedObject)
    requires Minimal(base, pending, needs, objects) && o in pending && needs(o.key) <= objects
    ensures Minimal(base, pending, needs, objects + {o.key})
  {
  }

  lemma {:induction false} EachForAppend(repo: Repository, pending: seq<PlannedObject>, us: seq<Unit>, vs: seq<Unit>, o: PlannedObject)
    requires EachFor(repo, pending, us) && o in pending && forall v :: v in vs ==> UnitFor(repo, o, v)
    ensures EachFor(repo, pending, us + vs)
  {
  }

  /** What passes over `pending` have reached so far, on a server where only unmet needs make a body fail. */
  ghost predicate Grown(base: set<string>, pending: seq<PlannedObject>, needs: string -> set<string>,
                        live: set<string>, applied: seq<PlannedObject>) {
    && base <= live && Minimal(base, pending, needs, live)
    && forall o :: o in applied ==> needs(o.key) <= live && o.key in live
  }

  /** One attempt of a pass, with the objects that existed before it. */
  datatype Try = Try(o: PlannedObject, live: set<string>, applied: bool)

  function Tried(tries: seq<Try>): (os: seq<PlannedObject>)
    ensures |os| == |tries|
  {
    if tries == [] then [] else Tried(tries[..|tries| - 1]) + [tries[|tries| - 1].o]
  }

  function AppliedIn(tries: seq<Try>): seq<PlannedObject> {
    if tries == [] then []
    else AppliedIn(tries[..|tries| - 1]) + if tries[|tries| - 1].applied then [tries[|tries| - 1].o] else []
  }

  function LeftIn(tries: seq<Try>): seq<PlannedObject> {
    if tries == [] then []
    else LeftIn(tries[..|tries| - 1]) + if tries[|tries| - 1].applied then [] else [tries[|tries| - 1].o]
  }

  /** Each attempt succeeded exactly if its needs existed, and added its own object. */
  ghost predicate Chain(tries: seq<Try>, needs: string -> set<string>, from: set<string>, to: set<string>) {
    if tries == [] then to == from
    else
      var last := tries[|tries| - 1];
      && Chain(tries[..|tries| - 1], needs, from, last.live)
      && (last.applied <==> needs(last.o.key) <= last.live)
      && to == last.live + if last.applied then {last.o.key} else {}
  }

  lemma {:induction false} TriesSplit(tries: seq<Try>)
    ensures multiset(AppliedIn(tries)) + multiset(LeftIn(tries)) == multiset(Tried(tries))
    ensures |AppliedIn(tries)| + |LeftIn(tries)| == |tries|
  {
    if tries != [] {
      TriesSplit(tries[..|tries| - 1]);
    }
  }

  lemma {:induction false} ChainGrows(tries: seq<Try>, needs: string -> set<string>, from: set<string>, to: set<string>,
                                      base: set<string>, pending: seq<PlannedObject>, already: seq<PlannedObject>)
    requires Chain(tries, needs, from, to) && Grown(base, pending, needs, from, already)
    requires forall o :: o in Tried(tries) ==> o in pending
    ensures Grown(base, pending, needs, to, already + AppliedIn(tries))
    ensures AppliedIn(tries) == [] ==> to == from && forall o :: o in LeftIn(tries) ==> !(needs(o.key) <= to)
  {
    if tries == [] {
      assert already + [] == already;
    } else {
      var n := |tries| - 1;
      var last := tries[n];
      ChainGrows(tries[..n], needs, from, last.live, base, pending, already);
      if last.applied {
        StaysMinimal(base, pending, needs, last.live, last.o);
        assert already + AppliedIn(tries) == already + AppliedIn(tries[..n]) + [last.o];
      }
    }
  }

  datatype Verdict = WasApplied | SetAside(error: Failure) | Stop

  /** One module of a pass: an ordinary failure is taken back out of the result and kept for the last pass. */
  method TryModule(conn: TimingConn, repo: Repository, o: PlannedObject, result: ApplyResult)
    returns (verdict: Verdict, ghost us: seq<Unit>)
    requires Ready(conn, result) && OwnBodies(repo, o)
    modifies conn, result
    ensures Accounted(conn, result) && result.skipped == old(result.skipped)
    ensures conn.db == ApplyUnits(old(conn.db), us) && forall u :: u in us ==> UnitFor(repo, o, u)
    ensures result.applied == old(result.applied) + if verdict.WasApplied? then 1 else 0
    ensures verdict.WasApplied? ==> Sound(repo, o) && us == [ObjectUnit(repo, o)]
    ensures !verdict.Stop? ==> result.errors == old(result.errors) && conn.poisonedAt.None? && conn.tx.Closed?
    ensures verdict.SetAside? ==> verdict.error == StatementFailed(o.key)
    ensures verdict.Stop? ==> conn.poisonedAt.Some? && result.errors == old(result.errors) + Report(o.key, true)
    ensures old(conn.Orderly() && conn.connected) && Sound(repo, o) ==>
              && conn.connected && !verdict.Stop? && (verdict.SetAside? ==> us == [])
              && (verdict.WasApplied? <==> conn.needs(o.key) <= old(conn.db).live.Keys)
              && conn.db.live.Keys == old(conn.db).live.Keys + (if verdict.WasApplied? then {o.key} else {})
    ensures ObjectWork(repo, old(conn.sent), conn.sent)
  {
    var failed, errors := result.failed, |result.errors|;
    us := ExecObject(conn, repo, o, result);
    if result.failed == failed {
      return WasApplied, us;
    }
    var drained := result.errors[errors..];
    assert drained == Report(o.key, conn.poisonedAt.Some?);
    assert conn.poisonedAt.Some? ==> drained[0].RollbackFailed?;
    result.errors := result.errors[..errors];
    result.failed := failed;
    if exists e :: e in drained && e.RollbackFailed? {
      assert conn.poisonedAt.Some?;
      result.errors := result.errors + drained;
      result.failed := result.failed + |drained|;
      assert drained[0].RollbackFailed? && drained[0] in result.errors;
      return Stop, us;
    }
    verdict := SetAside(drained[|drained| - 1]);
  }

  /** All modules readable, honest about the transaction, on a server where only unmet needs make a body fail. */
  ghost predicate Predictable(conn: TimingConn, repo: Repository, pending: seq<PlannedObject>)
    reads conn
  {
    conn.Orderly() && conn.connected && forall o :: o in pending ==> Sound(repo, o)
  }

  /** The error kept for each module that was set aside. */
  function FinalErrors(left: seq<PlannedObject>): seq<Failure> {
    seq(|left|, i requires 0 <= i < |left| => StatementFailed(left[i].key))
  }

  /** The bookkeeping of a pass that has attempted `tried`. */
  ghost predicate Passed(repo: Repository, tried: seq<PlannedObject>, us: seq<Unit>, tries: seq<Try>,
                         next: seq<PlannedObject>, finalErrors: seq<Failure>, progress: bool) {
    && EachFor(repo, tried, us) && Tried(tries) == tried
    && next == LeftIn(tries) && finalErrors == FinalErrors(next) && progress == (AppliedIn(tries) != [])
    && forall o :: o in AppliedIn(tries) ==> Sound(repo, o) && ObjectUnit(repo, o) in us
  }

  lemma {:induction false} EachForWider(repo: Repository, pending: seq<PlannedObject>, more: seq<PlannedObject>, us: seq<Unit>)
    requires EachFor(repo, pending, us)
    ensures EachFor(repo, pending + more, us)
  {
  }

  lemma {:induction false} PassedOne(repo: Repository, batch: seq<PlannedObject>, i: nat, us: seq<Unit>, tries: seq<Try>,
                  next: seq<PlannedObject>, finalErrors: seq<Failure>, progress: bool,
                  live: set<string>, verdict: Verdict, attempt: seq<Unit>)
    requires i < |batch| && Passed(repo, batch[..i], us, tries, next, finalErrors, progress)
    requires forall u :: u in attempt ==> UnitFor(repo, batch[i], u)
    requires verdict.WasApplied? ==> Sound(repo, batch[i]) && attempt == [ObjectUnit(repo, batch[i])]
    requires verdict.SetAside? ==> verdict.error == StatementFailed(batch[i].key)
    ensures EachFor(repo, batch, us + attempt)
    ensures var tries' := tries + [Try(batch[i], live, verdict.WasApplied?)];
            match verdict
            case WasApplied => Passed(repo, batch[..i + 1], us + attempt, tries', next, finalErrors, true)
            case SetAside(error) => Passed(repo, batch[..i + 1], us + attempt, tries', next + [batch[i]], finalErrors + [error], progress)
            case Stop => true
    ensures |AppliedIn(tries + [Try(batch[i], live, verdict.WasApplied?)])| == |AppliedIn(tries)| + if verdict.WasApplied? then 1 else 0
  {
  }

  /** A pass on a predictable server: the units are those of the applied modules, and each needs list was decided by `live`. */
  ghost predicate ExactPass(repo: Repository, tries: seq<Try>, us: seq<Unit>, needs: string -> set<string>, from: set<string>, to: set<string>) {
    Flushed(repo, AppliedIn(tries), us) && Chain(tries, needs, from, to)
  }

  lemma {:induction false} ExactOne(repo: Repository, tries: seq<Try>, t: Try, us: seq<Unit>, attempt: seq<Unit>,
                                    needs: string -> set<string>, from: set<string>, to: set<string>)
    requires ExactPass(repo, tries, us, needs, from, t.live) && (t.applied <==> needs(t.o.key) <= t.live)
    requires to == t.live + if t.applied then {t.o.key} else {}
    requires if t.applied then Sound(repo, t.o) && attempt == [ObjectUnit(repo, t.o)] else attempt == []
    ensures ExactPass(repo, tries + [t], us + attempt, needs, from, to)
  {
  }

  /** `us` is what was committed since `db0`, and only object work was sent. */
  ghost predicate Did(repo: Repository, db0: Database, sent0: seq<Request>, us: seq<Unit>, db: Database, sent: seq<Request>) {
    db == ApplyUnits(db0, us) && ObjectWork(repo, sent0, sent)
  }

  lemma {:induction false} DidMore(repo: Repository, db0: Database, sent0: seq<Request>, us: seq<Unit>, db: Database, sent: seq<Request>,
                                   more: seq<Unit>, db': Database, sent': seq<Request>)
    requires Did(repo, db0, sent0, us, db, sent) && Did(repo, db, sent, more, db', sent')
    ensures Did(repo, db0, sent0, us + more, db', sent')
  {
    ApplyAppend(db0, us, more);
    ObjectWorkOn(repo, sent0, sent, sent');
  }

  /** One pass over the batch: failures are set aside for the next pass, a failed rollback ends everything. */
  method OnePass(conn: TimingConn, repo: Repository, batch: seq<PlannedObject>, result: ApplyResult)
    returns (next: seq<PlannedObject>, finalErrors: seq<Failure>, progress: bool, stopped: bool, ghost us: seq<Unit>, ghost tries: seq<Try>)
    requires Ready(conn, result)
    requires forall o :: o in batch ==> OwnBodies(repo, o)
    modifies conn, result
    ensures Accounted(conn, result) && result.skipped == old(result.skipped)
    ensures conn.db == ApplyUnits(old(conn.db), us) && EachFor(repo, batch, us)
    ensures result.applied == old(result.applied) + |AppliedIn(tries)|
    ensures stopped == conn.poisonedAt.Some?
    ensures conn.poisonedAt.None? ==>
              && conn.tx.Closed? && result.errors == old(result.errors)
              && Passed(repo, batch, us, tries, next, finalErrors, progress)
    ensures conn.poisonedAt.Some? ==> |result.errors| > |old(result.errors)| && old(result.errors) <= result.errors
    ensures old(Predictable(conn, repo, batch)) ==>
              conn.connected && conn.poisonedAt.None? && ExactPass(repo, tries, us, conn.needs, old(conn.db).live.Keys, conn.db.live.Keys)
    ensures ObjectWork(repo, old(conn.sent), conn.sent)
  {
    next, finalErrors, progress, stopped, us, tries := [], [], false, false, [], [];
    ghost var calm := Predictable(conn, repo, batch);
    var i := 0;
    while i < |batch|
      invariant 0 <= i <= |batch|
      invariant Ready(conn, result)
      invariant !stopped && result.skipped == old(result.skipped) && result.errors == old(result.errors)
      invariant result.applied == old(result.applied) + |AppliedIn(tries)|
      invariant Did(repo, old(conn.db), old(conn.sent), us, conn.db, conn.sent)
      invariant Passed(repo, batch[..i], us, tries, next, finalErrors, progress)
      invariant calm ==>
                  conn.connected && ExactPass(repo, tries, us, conn.needs, old(conn.db).live.Keys, conn.db.live.Keys)
    {
      var o := batch[i];
      assert calm ==> conn.Orderly() && Sound(repo, o);
      ghost var live, db, sent := conn.db.live.Keys, conn.db, conn.sent;
      var verdict: Verdict;
      ghost var attempt: seq<Unit>;
      verdict, attempt := TryModule(conn, repo, o, result);
      DidMore(repo, old(conn.db), old(conn.sent), us, db, sent, attempt, conn.db, conn.sent);
      PassedOne(repo, batch, i, us, tries, next, finalErrors, progress, live, verdict, attempt);
      if calm {
        ExactOne(repo, tries, Try(o, live, verdict.WasApplied?), us, attempt, conn.needs, old(conn.db).live.Keys, conn.db.live.Keys);
      }
      us := us + attempt;
      i := i + 1;
      if verdict.Stop? {
        stopped := true;
        return;
      }
      tries := tries + [Try(o, live, verdict.WasApplied?)];
      if verdict.WasApplied? {
        progress := true;
      } else {
        finalErrors := finalErrors + [verdict.error];
        next := next + [o];
      }
    }
    assert batch[..i] == batch;
  }

  /** The bookkeeping of all passes so far: every module was applied or is still in the batch. */
  ghost predicate Shared(pending: seq<PlannedObject>, applied: seq<PlannedObject>, batch: seq<PlannedObject>) {
    multiset(applied) + multiset(batch) == multiset(pending)
  }

  lemma {:induction false} SharedMembers(pending: seq<PlannedObject>, applied: seq<PlannedObject>, batch: seq<PlannedObject>)
    requires Shared(pending, applied, batch)
    ensures forall o :: o in pending <==> o in applied || o in batch
  {
    forall o: PlannedObject
      ensures o in pending <==> o in applied || o in batch
    {
      assert o in multiset(pending) <==> o in multiset(applied) + multiset(batch);
    }
  }

  lemma {:induction false} SharedAfterPass(pending: seq<PlannedObject>, applied: seq<PlannedObject>, tries: seq<Try>)
    requires Shared(pending, applied, Tried(tries))
    ensures Shared(pending, applied + AppliedIn(tries), LeftIn(tries))
  {
    TriesSplit(tries);
  }

  lemma {:induction false} EachForSubset(repo: Repository, few: seq<PlannedObject>, many: seq<PlannedObject>, us: seq<Unit>, vs: seq<Unit>)
    requires EachFor(repo, many, us) && EachFor(repo, few, vs) && forall o :: o in few ==> o in many
    ensures EachFor(repo, many, us + vs)
  {
  }

  /** All passes so far: what was committed, what was applied, what is still in the batch. */
  ghost predicate Reached(repo: Repository, pending: seq<PlannedObject>, us: seq<Unit>, applied: seq<PlannedObject>, batch: seq<PlannedObject>) {
    && EachFor(repo, pending, us) && Shared(pending, applied, batch)
    && forall o :: o in applied ==> Sound(repo, o) && ObjectUnit(repo, o) in us
  }

  lemma {:induction false} ReachedByPass(repo: Repository, pending: seq<PlannedObject>, us: seq<Unit>, applied: seq<PlannedObject>, batch: seq<PlannedObject>,
                      pass: seq<Unit>, tries: seq<Try>, next: seq<PlannedObject>, finalErrors: seq<Failure>, progress: bool)
    requires Reached(repo, pending, us, applied, batch) && Passed(repo, batch, pass, tries, next, finalErrors, progress)
    ensures Reached(repo, pending, us + pass, applied + AppliedIn(tries), next)
    ensures |next| <= |batch| && (progress ==> |next| < |batch|)
    ensures forall o :: o in batch ==> o in pending
  {
    SharedMembers(pending, applied, batch);
    EachForSubset(repo, batch, pending, us, pass);
    TriesSplit(tries);
    SharedAfterPass(pending, applied, tries);
    forall o | o in applied + AppliedIn(tries)
      ensures Sound(repo, o) && ObjectUnit(repo, o) in us + pass
    {
      assert o in applied || o in AppliedIn(tries);
    }
  }

  /** All passes so far on a predictable server. */
  ghost predicate ExactRun(repo: Repository, pending: seq<PlannedObject>, us: seq<Unit>, applied: seq<PlannedObject>,
                           needs: string -> set<string>, base: set<string>, live: set<string>) {
    Flushed(repo, applied, us) && Grown(base, pending, needs, live, applied)
  }

  /** No module of the batch has its needs met. */
  ghost predicate Stuck(batch: seq<PlannedObject>, needs: string -> set<string>, live: set<string>) {
    forall o :: o in batch ==> !(needs(o.key) <= live)
  }

  /** All passes so far; the second line is about a predictable server. */
  ghost predicate InPasses(repo: Repository, pending: seq<PlannedObject>, us: seq<Unit>, applied: seq<PlannedObject>, batch: seq<PlannedObject>,
                           calm: bool, needs: string -> set<string>, base: set<string>, live: set<string>, progress: bool) {
    && Reached(repo, pending, us, applied, batch)
    && (calm ==> ExactRun(repo, pending, us, applied, needs, base, live) && (!progress ==> Stuck(batch, needs, live)))
  }

  lemma {:induction false} InPassesNext(repo: Repository, pending: seq<PlannedObject>, us: seq<Unit>, applied: seq<PlannedObject>, batch: seq<PlannedObject>,
                                        calm: bool, needs: string -> set<string>, base: set<string>, from: set<string>, to: set<string>,
                                        tries: seq<Try>, pass: seq<Unit>, next: seq<PlannedObject>, finalErrors: seq<Failure>, progress: bool)
    requires InPasses(repo, pending, us, applied, batch, calm, needs, base, from, true)
    requires Passed(repo, batch, pass, tries, next, finalErrors, progress)
    requires calm ==> ExactPass(repo, tries, pass, needs, from, to)
    ensures InPasses(repo, pending, us + pass, applied + AppliedIn(tries), next, calm, needs, base, to, progress)
    ensures |next| <= |batch| && (progress ==> |next| < |batch|)
  {
    ReachedByPass(repo, pending, us, applied, batch, pass, tries, next, finalErrors, progress);
    if calm {
      FlushedAppend(repo, applied, us, AppliedIn(tries), pass);
      ChainGrows(tries, needs, from, to, base, pending, applied);
    }
  }

  /** What a predictable server reached is the least set closed under the modules whose needs are met. */
  ghost predicate Finished(repo: Repository, pending: seq<PlannedObject>, us: seq<Unit>, applied: seq<PlannedObject>,
                           needs: string -> set<string>, base: set<string>, live: set<string>) {
    && Flushed(repo, applied, us) && Least(base, pending, needs, live)
    && forall o :: o in pending ==> (o in applied <==> needs(o.key) <= live)
  }

  lemma {:induction false} ExactToTheEnd(repo: Repository, pending: seq<PlannedObject>, us: seq<Unit>, applied: seq<PlannedObject>, left: seq<PlannedObject>,
                                         needs: string -> set<string>, base: set<string>, live: set<string>)
    requires Reached(repo, pending, us, applied, left) && Stuck(left, needs, live)
    requires ExactRun(repo, pending, us, applied, needs, base, live)
    ensures Finished(repo, pending, us, applied, needs, base, live)
  {
    SharedMembers(pending, applied, left);
  }

  /** The passes, until the batch is empty, a pass applies nothing or a rollback fails. */
  method RunPasses(conn: TimingConn, repo: Repository, pending: seq<PlannedObject>, result: ApplyResult)
    returns (left: seq<PlannedObject>, finalErrors: seq<Failure>, stopped: bool, ghost us: seq<Unit>, ghost applied: seq<PlannedObject>)
    requires Ready(conn, result)
    requires forall o :: o in pending ==> OwnBodies(repo, o)
    modifies conn, result
    ensures Accounted(conn, result) && result.skipped == old(result.skipped)
    ensures conn.db == ApplyUnits(old(conn.db), us) && EachFor(repo, pending, us)
    ensures result.applied >= old(result.applied) && stopped == conn.poisonedAt.Some?
    ensures !stopped ==>
              && conn.tx.Closed? && result.applied == old(result.applied) + |applied| && result.errors == old(result.errors)
              && Reached(repo, pending, us, applied, left) && finalErrors == FinalErrors(left)
    ensures stopped ==> |result.errors| > |old(result.errors)|
    ensures old(Predictable(conn, repo, pending)) ==>
              && !stopped && conn.connected
              && ExactRun(repo, pending, us, applied, conn.needs, old(conn.db).live.Keys, conn.db.live.Keys)
              && Stuck(left, conn.needs, conn.db.live.Keys)
    ensures ObjectWork(repo, old(conn.sent), conn.sent)
  {
    us, applied, left := [], [], pending;
    finalErrors, stopped := [], false;
    ghost var calm := Predictable(conn, repo, pending);
    var progress := true;
    while left != [] && progress
      invariant Ready(conn, result)
      invariant !stopped && result.skipped == old(result.skipped) && result.errors == old(result.errors)
      invariant Did(repo, old(conn.db), old(conn.sent), us, conn.db, conn.sent)
      invariant InPasses(repo, pending, us, applied, left, calm, conn.needs, old(conn.db).live.Keys, conn.db.live.Keys, progress)
      invariant result.applied == old(result.applied) + |applied|
      invariant left == [] || !progress ==> finalErrors == FinalErrors(left)
      invariant calm ==> conn.connected
      decreases |left|, progress
    {
      SharedMembers(pending, applied, left);
      assert calm ==> Predictable(conn, repo, left);
      ghost var live, batch, db, sent := conn.db.live.Keys, left, conn.db, conn.sent;
      ghost var pass, tries;
      left, finalErrors, progress, stopped, pass, tries := OnePass(conn, repo, left, result);
      DidMore(repo, old(conn.db), old(conn.sent), us, db, sent, pass, conn.db, conn.sent);
      if stopped {
        EachForSubset(repo, batch, pending, us, pass);
        us := us + pass;
        return;
      }
      InPassesNext(repo, pending, us, applied, batch, calm, conn.needs, old(conn.db).live.Keys, live, conn.db.live.Keys,
                   tries, pass, left, finalErrors, progress);
      us, applied := us + pass, applied + AppliedIn(tries);
    }
  }

  method ApplyModules(conn: TimingConn, repo: Repository, pending: seq<PlannedObject>, result: ApplyResult)
    returns (ghost us: seq<Unit>, ghost applied: seq<PlannedObject>, ghost left: seq<PlannedObject>)
    requires Ready(conn, result)
    requires forall o :: o in pending ==> OwnBodies(repo, o)
    modifies conn, result
    ensures Accounted(conn, result) && result.skipped == old(result.skipped)
    ensures conn.db == ApplyUnits(old(conn.db), us) && EachFor(repo, pending, us)
    ensures result.applied >= old(result.applied)
    ensures conn.poisonedAt.None? ==>
              && conn.tx.Closed? && result.applied == old(result.applied) + |applied|
              && Reached(repo, pending, us, applied, left) && result.errors == old(result.errors) + FinalErrors(left)
    ensures conn.poisonedAt.Some? ==> |result.errors| > |old(result.errors)|
    ensures old(Predictable(conn, repo, pending)) ==>
              && conn.poisonedAt.None? && conn.connected && Stuck(left, conn.needs, conn.db.live.Keys)
              && Finished(repo, pending, us, applied, conn.needs, old(conn.db).live.Keys, conn.db.live.Keys)
    ensures ObjectWork(repo, old(conn.sent), conn.sent)
  {
    var batch, finalErrors, stopped;
    batch, finalErrors, stopped, us, applied := RunPasses(conn, repo, pending, result);
    left := batch;
    if stopped {
      return;
    }
    if old(Predictable(conn, repo, pending)) {
      ExactToTheEnd(repo, pending, us, applied, left, conn.needs, old(conn.db).live.Keys, conn.db.live.Keys);
    }
    if batch != [] {
      PushAll(result, finalErrors);
    }
  }

  method PushAll(result: ApplyResult, errors: seq<Failure>)
    modifies result`failed, result`errors
    ensures result.errors == old(result.errors) + errors && result.failed == old(result.failed) + |errors|
  {
    var i := 0;
    while i < |errors|
      invariant 0 <= i <= |errors|
      invariant result.errors == old(result.errors) + errors[..i] && result.failed == old(result.failed) + i
    {
      result.PushError(errors[i]);
      i := i + 1;
    }
  }
}
