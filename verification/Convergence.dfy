/**
 What a run settles. After a migrate without failure a new plan of the same
 repository skips every object, except exactly the changed tables that had no
 transition left to run; after repair-checksum it skips every existing object.
 */
module Convergence {
  import opened Prelude
  import opened Domain
  import opened Server
  import opened Units
  import opened Transitions
  import opened Modules
  import opened Objects
  import opened Execute
  import opened AuditLoad
  import opened Filter
  import Planner

  /** The newest audit row of `key` carries `digest` and the definition the object has now. */
  ghost predicate Settled(db: Database, key: string, digest: nat) {
    && key in db.live && Latest(db.history, key).Some?
    && Latest(db.history, key).value.checksum == Hex(digest)
    && Latest(db.history, key).value.live == Some(db.live[key].definition)
  }

  /** `key` looks the same in both databases. */
  ghost predicate SameAt(a: Database, b: Database, key: string) {
    && Latest(a.history, key) == Latest(b.history, key)
    && (key in a.live <==> key in b.live) && (key in a.live ==> a.live[key] == b.live[key])
  }

  predicate RecordsObject(r: Record, key: string) {
    r.kind.ObjectRecord? && r.key == key
  }

  ghost predicate Mentions(records: seq<Record>, key: string) {
    exists r :: r in records && RecordsObject(r, key)
  }

  ghost predicate Touches(u: Unit, key: string) {
    (u.Script? && u.body.key == key) || Mentions(u.records, key)
  }

  /** `u` leaves `key` settled at `digest`, provided it exists when `u` only audits. */
  ghost predicate Settles(u: Unit, key: string, digest: nat) {
    && (u.Script? ==> u.body.key == key)
    && Mentions(u.records, key) && forall r :: r in u.records && RecordsObject(r, key) ==> r.digest == digest
  }

  lemma {:induction false} CaptureOneMore(history: seq<Row>, seen: Database, records: seq<Record>, r: Record, key: string)
    ensures Latest(history + CaptureAll(seen, records + [r]), key) ==
            if RecordsObject(r, key) then Some(Capture(seen, r)) else Latest(history + CaptureAll(seen, records), key)
  {
    var rows := history + CaptureAll(seen, records + [r]);
    assert rows[..|rows| - 1] == history + CaptureAll(seen, records);
  }

  lemma {:induction false} MentionsSplit(records: seq<Record>, r: Record, key: string)
    ensures Mentions(records + [r], key) <==> Mentions(records, key) || RecordsObject(r, key)
    ensures forall x :: x in records ==> x in records + [r]
  {
  }

  lemma {:induction false} LatestUnmentioned(history: seq<Row>, seen: Database, records: seq<Record>, key: string)
    requires !Mentions(records, key)
    ensures Latest(history + CaptureAll(seen, records), key) == Latest(history, key)
    decreases |records|
  {
    if records == [] {
      assert history + CaptureAll(seen, records) == history;
    } else {
      var init, last := records[..|records| - 1], records[|records| - 1];
      assert records == init + [last];
      MentionsSplit(init, last, key);
      LatestUnmentioned(history, seen, init, key);
      CaptureOneMore(history, seen, init, last, key);
    }
  }

  lemma {:induction false} LatestCaptured(history: seq<Row>, seen: Database, records: seq<Record>, key: string, digest: nat)
    requires Mentions(records, key) && forall r :: r in records && RecordsObject(r, key) ==> r.digest == digest
    ensures var latest := Latest(history + CaptureAll(seen, records), key);
            && latest.Some? && latest.value.checksum == Hex(digest)
            && latest.value.live == if key in seen.live then Some(seen.live[key].definition) else None
    decreases |records|
  {
    var init, last := records[..|records| - 1], records[|records| - 1];
    assert records == init + [last];
    MentionsSplit(init, last, key);
    CaptureOneMore(history, seen, init, last, key);
    if !RecordsObject(last, key) {
      LatestCaptured(history, seen, init, key, digest);
    }
  }

  lemma {:induction false} UntouchedByUnit(db: Database, u: Unit, key: string)
    requires !Touches(u, key)
    ensures SameAt(db, ApplyUnit(db, u), key)
  {
    match u
    case Script(body, records) =>
      LatestUnmentioned(db.history, Install(db, BodyWork(body)), records, key);
      assert db.history + [] == db.history;
    case Audit(records) => LatestUnmentioned(db.history, db, records, key);
  }

  lemma {:induction false} SettledByUnit(db: Database, u: Unit, key: string, digest: nat)
    requires Settles(u, key, digest) && (u.Audit? ==> key in db.live)
    ensures Settled(ApplyUnit(db, u), key, digest)
  {
    match u
    case Script(body, records) =>
      LatestCaptured(db.history, Install(db, BodyWork(body)), records, key, digest);
      assert db.history + [] == db.history;
    case Audit(records) => LatestCaptured(db.history, db, records, key, digest);
  }

  lemma {:induction false} Untouched(db: Database, us: seq<Unit>, key: string)
    requires forall u :: u in us ==> !Touches(u, key)
    ensures SameAt(db, ApplyUnits(db, us), key)
    decreases |us|
  {
    if us != [] {
      var n := |us| - 1;
      assert us[n] in us;
      Untouched(db, us[..n], key);
      UntouchedByUnit(ApplyUnits(db, us[..n]), us[n], key);
    }
  }

  lemma {:induction false} SettledStill(db: Database, u: Unit, key: string, digest: nat)
    requires Settled(db, key, digest) && Respects(u, key, digest)
    ensures Settled(ApplyUnit(db, u), key, digest)
  {
    if Touches(u, key) {
      SettledByUnit(db, u, key, digest);
    } else {
      UntouchedByUnit(db, u, key);
    }
  }

  /** `u` leaves a settled key settled. */
  ghost predicate Respects(u: Unit, key: string, digest: nat) {
    Touches(u, key) ==> u.Script? && Settles(u, key, digest)
  }

  lemma {:induction false} StaysSettled(db: Database, us: seq<Unit>, key: string, digest: nat)
    requires Settled(db, key, digest) && forall u :: u in us ==> Respects(u, key, digest)
    ensures Settled(ApplyUnits(db, us), key, digest)
    decreases |us|
  {
    if us != [] {
      var earlier, last := us[..|us| - 1], us[|us| - 1];
      assert last in us && forall u :: u in earlier ==> u in us;
      StaysSettled(db, earlier, key, digest);
      SettledStill(ApplyUnits(db, earlier), last, key, digest);
    }
  }

  /** Settled by unit `j`, and nothing later unsettles it. */
  lemma {:induction false} SettledAfter(db: Database, us: seq<Unit>, j: nat, key: string, digest: nat)
    requires j < |us| && Settles(us[j], key, digest)
    requires us[j].Audit? ==> key in ApplyUnits(db, us[..j]).live
    requires forall k :: j < k < |us| ==> Respects(us[k], key, digest)
    ensures Settled(ApplyUnits(db, us), key, digest)
  {
    var first, rest := us[..j + 1], us[j + 1..];
    TakeOneMore(us, j);
    ApplyOneMore(db, us[..j], us[j]);
    SettledByUnit(ApplyUnits(db, us[..j]), us[j], key, digest);
    forall u | u in rest
      ensures Respects(u, key, digest)
    {
      var k :| 0 <= k < |rest| && rest[k] == u;
      assert us[j + 1 + k] == u;
    }
    StaysSettled(ApplyUnits(db, first), rest, key, digest);
    ApplyAppend(db, first, rest);
    assert first + rest == us;
  }

  lemma {:induction false} SameKeySameObject(objects: seq<PlannedObject>, a: PlannedObject, b: PlannedObject)
    requires DistinctKeys(objects) && a in objects && b in objects && a.key == b.key
    ensures a == b
  {
  }

  /** The last step of a pending object, with no step of that object after it. */
  lemma {:induction false} LastStep(objects: seq<PlannedObject>, o: PlannedObject) returns (j: nat)
    requires DistinctKeys(objects) && o in objects && Pending(o)
    ensures j < |Steps(objects)| && Steps(objects)[j] == (o, |o.transitions| - 1)
    ensures forall k :: j < k < |Steps(objects)| ==> Steps(objects)[k].0 != o
  {
    var n := |objects| - 1;
    var earlier, last := Steps(objects[..n]), StepsOf(objects[n]);
    if objects[n] == o {
      j := |Steps(objects)| - 1;
    } else {
      assert objects == objects[..n] + [objects[n]];
      j := LastStep(objects[..n], o);
    }
  }

  lemma {:induction false} TransitionTouches(repo: Repository, o: PlannedObject, i: nat, key: string)
    requires i < |o.transitions| && VerifiedBody(repo, o.transitions[i], o.digest).Some? && OwnBodies(repo, o)
    ensures Touches(TransitionUnit(repo, o, i), key) ==> o.key == key
    ensures i == |o.transitions| - 1 ==> Settles(TransitionUnit(repo, o, i), o.key, o.digest)
  {
    var u := TransitionUnit(repo, o, i);
    assert o.transitions[i] in o.transitions && u.body.key == o.key;
    if i == |o.transitions| - 1 {
      assert u.records[1] in u.records && RecordsObject(u.records[1], o.key);
    }
  }

  lemma {:induction false} ObjectUnitTouches(repo: Repository, o: PlannedObject, key: string)
    requires Sound(repo, o) && OwnBodies(repo, o)
    ensures Touches(ObjectUnit(repo, o), key) ==> o.key == key
    ensures Settles(ObjectUnit(repo, o), o.key, o.digest)
  {
    var u := ObjectUnit(repo, o);
    assert u.records[0] in u.records && RecordsObject(u.records[0], o.key);
  }

  /** In a finished run every unit after the adoptions is the full unit of an object to apply. */
  lemma {:induction false} UnitOwner(repo: Repository, objects: seq<PlannedObject>, us: seq<Unit>, u: Unit) returns (o: PlannedObject)
    requires InOrder(repo, objects, us) && AllIn(repo, objects, us) && u in us[1..]
    ensures o in objects && ShouldApply(o) && Sound(repo, o) && u == ObjectUnit(repo, o)
  {
    var batches := Batch(objects, true) + Batch(objects, false);
    o :| o in batches && UnitFor(repo, o, u);
    BatchMembers(objects);
  }

  lemma {:induction false} AdoptionTouches(objects: seq<PlannedObject>, o: PlannedObject)
    requires DistinctKeys(objects) && o in objects
    ensures o.action.AdoptExisting? ==> Settles(Audit(AdoptRecords(objects)), o.key, o.digest)
    ensures !o.action.AdoptExisting? ==> !Touches(Audit(AdoptRecords(objects)), o.key)
  {
    BatchMembers(objects);
    var records := AdoptRecords(objects);
    forall r | r in records && RecordsObject(r, o.key)
      ensures o.action.AdoptExisting? && r.digest == o.digest
    {
      var x :| x in objects && x.action.AdoptExisting? && r == ObjectEntry(x, Adopted);
      SameKeySameObject(objects, x, o);
    }
    if o.action.AdoptExisting? {
      assert ObjectEntry(o, Adopted) in records && RecordsObject(ObjectEntry(o, Adopted), o.key);
    }
  }

  /** Everything the run needs to know about its objects. */
  ghost predicate Workable(repo: Repository, objects: seq<PlannedObject>) {
    DistinctKeys(objects) && forall o :: o in objects ==> OwnBodies(repo, o)
  }

  /** The transition phase touches exactly the pending objects, and settles them. */
  lemma {:induction false} TransitionsSettle(repo: Repository, objects: seq<PlannedObject>, before: Database, ts: seq<Unit>, o: PlannedObject)
    requires Workable(repo, objects) && o in objects
    requires UnitsOfSteps(repo, Steps(objects), ts) && |ts| == |Steps(objects)|
    ensures if Pending(o) then Settled(ApplyUnits(before, ts), o.key, o.digest) else SameAt(before, ApplyUnits(before, ts), o.key)
  {
    var steps := Steps(objects);
    StepMembers(objects);
    forall k | 0 <= k < |ts|
      ensures Touches(ts[k], o.key) ==> steps[k].0 == o
    {
      assert steps[k] in steps;
      TransitionTouches(repo, steps[k].0, steps[k].1, o.key);
      if Touches(ts[k], o.key) {
        SameKeySameObject(objects, steps[k].0, o);
      }
    }
    if Pending(o) {
      var j := LastStep(objects, o);
      TransitionTouches(repo, o, |o.transitions| - 1, o.key);
      SettledAfter(before, ts, j, o.key, o.digest);
    } else {
      forall u | u in ts
        ensures !Touches(u, o.key)
      {
        var k :| 0 <= k < |ts| && ts[k] == u;
        assert steps[k] in steps;
      }
      Untouched(before, ts, o.key);
    }
  }

  /** The object phase settles the adopted and the applied objects and touches no other. */
  lemma {:induction false} ObjectsSettle(repo: Repository, objects: seq<PlannedObject>, before: Database, us: seq<Unit>, o: PlannedObject)
    requires Workable(repo, objects) && o in objects
    requires InOrder(repo, objects, us) && AllIn(repo, objects, us)
    requires o.action.AdoptExisting? ==> o.key in before.live
    ensures if ShouldApply(o) || o.action.AdoptExisting? then Settled(ApplyUnits(before, us), o.key, o.digest)
            else SameAt(before, ApplyUnits(before, us), o.key)
  {
    AdoptionTouches(objects, o);
    forall k | 0 < k < |us| && Touches(us[k], o.key)
      ensures ShouldApply(o) && us[k].Script? && Settles(us[k], o.key, o.digest)
    {
      assert us[k] == us[1..][k - 1];
      var x := UnitOwner(repo, objects, us, us[k]);
      ObjectUnitTouches(repo, x, o.key);
      SameKeySameObject(objects, x, o);
    }
    if ShouldApply(o) {
      BatchMembers(objects);
      assert o in Batch(objects, true) + Batch(objects, false);
      ObjectUnitTouches(repo, o, o.key);
      var j :| 0 <= j < |us[1..]| && us[1..][j] == ObjectUnit(repo, o);
      SettledAfter(before, us, j + 1, o.key, o.digest);
    } else if o.action.AdoptExisting? {
      assert us[..0] == [];
      SettledAfter(before, us, 0, o.key, o.digest);
    } else {
      Untouched(before, us, o.key);
    }
  }

  lemma {:induction false} RunSettles(repo: Repository, objects: seq<PlannedObject>, before: Database, after: Database,
                   ts: seq<Unit>, us: seq<Unit>, o: PlannedObject)
    requires Workable(repo, objects) && o in objects
    requires RunCompletes(repo, objects, before, after, ts, us)
    ensures if ShouldApply(o) || o.action.AdoptExisting? || Pending(o) then Settled(after, o.key, o.digest)
            else SameAt(before, after, o.key)
  {
    TransitionsSettle(repo, objects, before, ts, o);
    ObjectsSettle(repo, objects, ApplyUnits(before, ts), us, o);
  }

  /** The live catalog restricted to the layout's keys. */
  function LiveCatalog(layout: Planner.Layout, db: Database, schemas: set<string>): Planner.Catalog {
    Planner.Catalog(schemas, map k | k in db.live && k in Planner.Keys(layout) :: Planner.CatalogObject(db.live[k].parent))
  }

  function LiveFacts(layout: Planner.Layout, db: Database, c: Planner.Checksums): (facts: Planner.Facts)
    ensures Planner.Fits(layout, facts)
  {
    Planner.FactsOf(layout, LiveCatalog(layout, db, {}), c)
  }

  /** The plan of `layout` against the live database. */
  function LivePlan(layout: Planner.Layout, db: Database, schemas: set<string>, c: Planner.Checksums): Planner.PlanView {
    Planner.FreshPlan(layout, LiveFacts(layout, db, c), LiveCatalog(layout, db, schemas), c.drift)
  }

  function ActionAt(layout: Planner.Layout, db: Database, c: Planner.Checksums, i: nat): Action
    requires i < |layout.objects|
  {
    Planner.Decide(layout, LiveFacts(layout, db, c), c.drift, i).Action()
  }

  lemma {:induction false} LivePlanRow(layout: Planner.Layout, db: Database, schemas: set<string>, c: Planner.Checksums, i: nat)
    requires i < |layout.objects|
    ensures LivePlan(layout, db, schemas, c).rows[i].action == ActionAt(layout, db, c, i)
  {
  }

  /** Keys are distinct and no digest is the zero digest. */
  ghost predicate ProperLayout(layout: Planner.Layout) {
    && Planner.DistinctObjects(layout.objects)
    && (forall i :: 0 <= i < |layout.objects| ==> layout.objects[i].digest != ZERO_DIGEST)
    && Planner.ProperPaths(layout)
  }

  /** What the planner reads about row `i`, straight from the database. */
  lemma {:induction false} RowFacts(layout: Planner.Layout, db: Database, repair: bool, c: Planner.Checksums, i: nat)
    requires i < |layout.objects| && Loaded(db, Planner.Keys(layout), repair) == Ok(c)
    ensures LiveFacts(layout, db, c).found[i] == (layout.objects[i].key in db.live)
    ensures Reads(db, layout.objects[i].key, LiveFacts(layout, db, c).priors[i], layout.objects[i].key in c.drift)
  {
    assert Planner.Keys(layout)[i] in Planner.Keys(layout);
    LoadedPrior(db, Planner.Keys(layout), repair, layout.objects[i].key);
  }

  ghost predicate Reads(db: Database, key: string, prior: Option<nat>, drift: bool) {
    && (prior.GetOr(ZERO_DIGEST) != ZERO_DIGEST <==> Latest(db.history, key).Some? && DigestOf(db, key) != ZERO_DIGEST)
    && (Latest(db.history, key).Some? ==> prior == Some(DigestOf(db, key)))
    && (drift <==> Latest(db.history, key).Some? && DigestOf(db, key) != ZERO_DIGEST && Drifted(db, Latest(db.history, key).value))
  }

  lemma {:induction false} ReadsSettled(db: Database, o: Planner.LayoutObject, prior: Option<nat>, drift: bool)
    requires Reads(db, o.key, prior, drift) && o.digest != ZERO_DIGEST
    ensures o.key in db.live && prior == Some(o.digest) && !drift <==> Settled(db, o.key, o.digest)
    ensures o.kind.Tables? && o.key in db.live && prior.GetOr(ZERO_DIGEST) != ZERO_DIGEST && prior != Some(o.digest) && !drift <==>
              ChangedTable(db, o)
  {
  }

  /** The decision for row `i`, in terms of the database. */
  lemma {:induction false} ActionMeans(layout: Planner.Layout, db: Database, repair: bool, c: Planner.Checksums, i: nat)
    requires ProperLayout(layout) && i < |layout.objects| && Loaded(db, Planner.Keys(layout), repair) == Ok(c)
    ensures ActionAt(layout, db, c, i).SkipUnchanged? <==> Settled(db, layout.objects[i].key, layout.objects[i].digest)
    ensures ActionAt(layout, db, c, i).CreateObject? <==> layout.objects[i].key !in db.live
    ensures ActionAt(layout, db, c, i).ReprocessChanged? <==> ChangedTable(db, layout.objects[i]) && i + 1 in layout.paths
  {
    RowFacts(layout, db, repair, c, i);
    var facts, o := LiveFacts(layout, db, c), layout.objects[i];
    ReadsSettled(db, o, facts.priors[i], o.key in c.drift);
    Planner.DecideMeans(layout, facts, c.drift, i, o.key in db.live, facts.priors[i]);
  }

  /** A live table whose audited definition is current but whose digest is another one. */
  ghost predicate ChangedTable(db: Database, o: Planner.LayoutObject) {
    && o.kind.Tables? && o.key in db.live && Latest(db.history, o.key).Some?
    && DigestOf(db, o.key) != ZERO_DIGEST && DigestOf(db, o.key) != o.digest
    && Settled(db, o.key, DigestOf(db, o.key))
  }

  /** The objects of an unfiltered or filtered plan have the layout's keys and digests. */
  ghost predicate PlannedFrom(layout: Planner.Layout, db: Database, c: Planner.Checksums, objects: seq<PlannedObject>) {
    && |objects| == |layout.objects|
    && forall i :: 0 <= i < |objects| ==>
         && objects[i].key == layout.objects[i].key && objects[i].digest == layout.objects[i].digest
         && objects[i].action == ActionAt(layout, db, c, i)
  }

  lemma {:induction false} MaterializedIsPlanned(layout: Planner.Layout, db: Database, schemas: set<string>, c: Planner.Checksums, pending: map<nat, seq<string>>)
    ensures var p := LivePlan(layout, db, schemas, c);
            |p.rows| == |layout.objects| && PlannedFrom(layout, db, c, Materialized(layout, p.rows, pending))
  {
  }

  /** A changed table none of whose transitions is left to run: the run does nothing for it. */
  predicate Stuck(o: PlannedObject) {
    o.action.ReprocessChanged? && o.transitions == []
  }

  /** One row of the plan after a finished run. */
  lemma {:induction false} RowConverges(layout: Planner.Layout, repo: Repository, before: Database, c: Planner.Checksums, objects: seq<PlannedObject>,
                     after: Database, ts: seq<Unit>, us: seq<Unit>, i: nat)
    requires ProperLayout(layout) && Loaded(before, Planner.Keys(layout), false) == Ok(c)
    requires PlannedFrom(layout, before, c, objects) && i < |objects|
    requires !Planner.Decide(layout, LiveFacts(layout, before, c), c.drift, i).Blocks()
    requires Workable(repo, objects) && RunCompletes(repo, objects, before, after, ts, us)
    ensures var o := objects[i];
            if Stuck(o) then SameAt(before, after, o.key) && ChangedTable(after, layout.objects[i]) && i + 1 in layout.paths
            else Settled(after, o.key, o.digest)
  {
    var o := objects[i];
    assert o in objects;
    RunSettles(repo, objects, before, after, ts, us, o);
    ActionMeans(layout, before, false, c, i);
    Planner.BlockingActions(Planner.Decide(layout, LiveFacts(layout, before, c), c.drift, i));
    assert !o.action.Fail? && !o.action.ReprocessChangedBlocked?;
    if !ShouldApply(o) && !o.action.AdoptExisting? && !Pending(o) {
      StaysAsIs(before, after, layout.objects[i]);
    }
  }

  lemma {:induction false} StaysAsIs(before: Database, after: Database, o: Planner.LayoutObject)
    requires SameAt(before, after, o.key)
    ensures Settled(before, o.key, o.digest) ==> Settled(after, o.key, o.digest)
    ensures ChangedTable(before, o) ==> ChangedTable(after, o)
  {
  }

  /** Loading still succeeds when every key is settled or as it was. */
  lemma {:induction false} StillLoads(layout: Planner.Layout, before: Database, after: Database)
    requires Loaded(before, Planner.Keys(layout), false).Ok?
    requires forall o :: o in layout.objects ==> SameAt(before, after, o.key) || Settled(after, o.key, o.digest)
    ensures Loaded(after, Planner.Keys(layout), false).Ok?
  {
    LoadedFromHistory(before, Planner.Keys(layout), false);
    LoadedFromHistory(after, Planner.Keys(layout), false);
    forall k | k in Planner.Keys(layout) && Latest(after.history, k).Some?
      ensures Decoded(Latest(after.history, k).value.checksum).Some?
    {
      var i :| 0 <= i < |layout.objects| && layout.objects[i].key == k;
      assert layout.objects[i] in layout.objects;
      assert before.history == [] ==> Latest(before.history, k).None?;
    }
  }

  /** All transitions of row `i` are already in the history. */
  ghost predicate NothingToRun(layout: Planner.Layout, db: Database, i: nat) {
    i + 1 in layout.paths && forall path :: path in layout.paths[i + 1] ==> AppliedRow(db.history, path).Some?
  }

  lemma {:induction false} StuckMeans(layout: Planner.Layout, db: Database, schemas: set<string>, c: Planner.Checksums, pending: map<nat, seq<string>>, i: nat)
    requires i < |layout.objects|
    requires var p := LivePlan(layout, db, schemas, c);
             Filtered(p.rows, p.transitions, AppliedMap(db.history), |p.rows|, pending)
    ensures var p := LivePlan(layout, db, schemas, c);
            ActionAt(layout, db, c, i).ReprocessChanged? && i + 1 in layout.paths ==>
              (Stuck(PlannedAt(layout, p.rows, pending, i)) <==> NothingToRun(layout, db, i))
  {
    var p := LivePlan(layout, db, schemas, c);
    LivePlanRow(layout, db, schemas, c, i);
    if ActionAt(layout, db, c, i).ReprocessChanged? && i + 1 in layout.paths {
      var paths := layout.paths[i + 1];
      assert Planner.PathsFor(layout, i, p.rows[i].action) == Some(paths);
      assert i in p.transitions && p.transitions[i] == paths;
      AppliedMapKeys(db.history);
      UnappliedMembers(paths, AppliedMap(db.history));
      assert Unapplied(paths, AppliedMap(db.history)) != [] ==> Unapplied(paths, AppliedMap(db.history))[0] in paths;
    }
  }

  /** Row `i` is settled, or it is a changed table as before. */
  ghost predicate RowOutcome(layout: Planner.Layout, before: Database, c: Planner.Checksums, after: Database, i: nat)
    requires i < |layout.objects|
  {
    var o := layout.objects[i];
    if ActionAt(layout, before, c, i).ReprocessChanged? && NothingToRun(layout, before, i)
    then SameAt(before, after, o.key) && ChangedTable(after, o) && i + 1 in layout.paths
    else Settled(after, o.key, o.digest)
  }

  /** Row `i` is skipped by the next plan, unless it was stuck: then it is a changed table again. */
  ghost predicate RowReplanned(layout: Planner.Layout, before: Database, c: Planner.Checksums, after: Database, again: Planner.Checksums, i: nat)
    requires i < |layout.objects|
  {
    if ActionAt(layout, before, c, i).ReprocessChanged? && NothingToRun(layout, before, i)
    then ActionAt(layout, after, again, i).ReprocessChanged?
    else ActionAt(layout, after, again, i).SkipUnchanged?
  }

  lemma {:induction false} OutcomesReplanned(layout: Planner.Layout, before: Database, c: Planner.Checksums, after: Database)
    requires ProperLayout(layout) && Loaded(before, Planner.Keys(layout), false) == Ok(c)
    requires forall i :: 0 <= i < |layout.objects| ==> RowOutcome(layout, before, c, after, i)
    ensures Loaded(after, Planner.Keys(layout), false).Ok?
    ensures forall i :: 0 <= i < |layout.objects| ==>
              RowReplanned(layout, before, c, after, Loaded(after, Planner.Keys(layout), false).value, i)
  {
    forall o | o in layout.objects
      ensures SameAt(before, after, o.key) || Settled(after, o.key, o.digest)
    {
      var i :| 0 <= i < |layout.objects| && layout.objects[i] == o;
      assert RowOutcome(layout, before, c, after, i);
    }
    StillLoads(layout, before, after);
    var again := Loaded(after, Planner.Keys(layout), false).value;
    forall i | 0 <= i < |layout.objects|
      ensures RowReplanned(layout, before, c, after, again, i)
    {
      assert RowOutcome(layout, before, c, after, i);
      ActionMeans(layout, after, false, again, i);
    }
  }

  /**
   Convergence. After a finished migrate of an unblocked plan, planning again
   against the new state skips an object if and only if it was not a changed
   table whose transitions had all been applied before; such a table is planned
   as changed again.
   */
  lemma {:induction false} Converges(layout: Planner.Layout, repo: Repository, before: Database, schemas: set<string>, c: Planner.Checksums,
                  pending: map<nat, seq<string>>, after: Database, ts: seq<Unit>, us: seq<Unit>)
    requires ProperLayout(layout) && Loaded(before, Planner.Keys(layout), false) == Ok(c)
    requires var p := LivePlan(layout, before, schemas, c);
             && !p.blocked && Filtered(p.rows, p.transitions, AppliedMap(before.history), |p.rows|, pending)
             && var objects := Materialized(layout, p.rows, pending);
                (forall o :: o in objects ==> OwnBodies(repo, o)) && RunCompletes(repo, objects, before, after, ts, us)
    ensures Loaded(after, Planner.Keys(layout), false).Ok?
    ensures forall i :: 0 <= i < |layout.objects| ==>
              RowReplanned(layout, before, c, after, Loaded(after, Planner.Keys(layout), false).value, i)
  {
    var p := LivePlan(layout, before, schemas, c);
    var objects := Materialized(layout, p.rows, pending);
    MaterializedIsPlanned(layout, before, schemas, c, pending);
    Planner.CountsAddUp(layout, LiveFacts(layout, before, c), c.drift, |layout.objects|);
    forall i | 0 <= i < |layout.objects|
      ensures RowOutcome(layout, before, c, after, i)
    {
      RowConverges(layout, repo, before, c, objects, after, ts, us, i);
      StuckMeans(layout, before, schemas, c, pending, i);
      ActionMeans(layout, before, false, c, i);
    }
    OutcomesReplanned(layout, before, c, after);
  }

  lemma {:induction false} RewriteTouches(mode: MetadataMode, objects: seq<PlannedObject>, o: PlannedObject)
    requires DistinctKeys(objects) && o in objects
    ensures Rewritten(mode, o) ==> Settles(Audit(Rewrites(mode, objects)), o.key, o.digest)
    ensures !Rewritten(mode, o) ==> !Touches(Audit(Rewrites(mode, objects)), o.key)
  {
    RewriteMembers(mode, objects);
    var records := Rewrites(mode, objects);
    forall r | r in records && RecordsObject(r, o.key)
      ensures Rewritten(mode, o) && r.digest == o.digest
    {
      var x :| x in objects && r in RewriteOne(mode, x);
      SameKeySameObject(objects, x, o);
    }
    if Rewritten(mode, o) {
      var r := RewriteOne(mode, o)[0];
      assert r in RewriteOne(mode, o) && r in records && RecordsObject(r, o.key);
    }
  }

  /** The newest row of no absent object is undecodable. */
  ghost predicate AbsentDecodable(layout: Planner.Layout, db: Database) {
    forall o :: o in layout.objects && o.key !in db.live && Latest(db.history, o.key).Some? ==>
                  Decoded(Latest(db.history, o.key).value.checksum).Some?
  }

  lemma {:induction false} RowRepaired(layout: Planner.Layout, db: Database, c: Planner.Checksums, objects: seq<PlannedObject>, after: Database, i: nat)
    requires ProperLayout(layout) && Loaded(db, Planner.Keys(layout), true) == Ok(c)
    requires PlannedFrom(layout, db, c, objects) && i < |objects| && DistinctKeys(objects)
    requires after == Audited(db, Rewrites(RepairChecksum, objects))
    ensures if objects[i].key in db.live then Settled(after, objects[i].key, objects[i].digest) else SameAt(db, after, objects[i].key)
  {
    var o := objects[i];
    var u := Audit(Rewrites(RepairChecksum, objects));
    ActionMeans(layout, db, true, c, i);
    RewriteTouches(RepairChecksum, objects, o);
    if Rewritten(RepairChecksum, o) && o.key in db.live {
      SettledByUnit(db, u, o.key, o.digest);
    } else if o.key in db.live {
      UntouchedByUnit(db, u, o.key);
    } else {
      assert ActionAt(layout, db, c, i).CreateObject?;
      UntouchedByUnit(db, u, o.key);
    }
  }

  /** Row `i` is skipped when its object exists and created when it does not. */
  ghost predicate RowSettled(layout: Planner.Layout, db: Database, again: Planner.Checksums, i: nat)
    requires i < |layout.objects|
  {
    if layout.objects[i].key in db.live
    then ActionAt(layout, db, again, i).SkipUnchanged?
    else ActionAt(layout, db, again, i).CreateObject?
  }

  /**
   After repair-checksum every object that exists is skipped by the next plan and
   every other one created, whatever the history held and whether or not the plan
   was blocked. The next plan can be made without repair if and only if no absent
   object has an undecodable checksum: repair leaves those rows alone.
   */
  lemma {:induction false} RepairSettles(layout: Planner.Layout, db: Database, schemas: set<string>, c: Planner.Checksums, after: Database, repair: bool)
    requires ProperLayout(layout) && Loaded(db, Planner.Keys(layout), true) == Ok(c)
    requires var p := LivePlan(layout, db, schemas, c);
             after == Audited(db, Rewrites(RepairChecksum, Materialized(layout, p.rows, p.transitions)))
    ensures after.live == db.live
    ensures Loaded(after, Planner.Keys(layout), repair).Ok? <==> repair || AbsentDecodable(layout, db)
    ensures Loaded(after, Planner.Keys(layout), repair).Ok? ==>
              forall i :: 0 <= i < |layout.objects| ==> RowSettled(layout, after, Loaded(after, Planner.Keys(layout), repair).value, i)
  {
    var p := LivePlan(layout, db, schemas, c);
    var objects := Materialized(layout, p.rows, p.transitions);
    MaterializedIsPlanned(layout, db, schemas, c, p.transitions);
    forall i | 0 <= i < |layout.objects|
      ensures RepairedAt(layout, db, after, i)
    {
      RowRepaired(layout, db, c, objects, after, i);
    }
    RepairedLoads(layout, db, after, repair);
    if Loaded(after, Planner.Keys(layout), repair).Ok? {
      var again := Loaded(after, Planner.Keys(layout), repair).value;
      forall i | 0 <= i < |layout.objects|
        ensures RowSettled(layout, after, again, i)
      {
        assert RepairedAt(layout, db, after, i);
        ActionMeans(layout, after, repair, again, i);
      }
    }
  }

  ghost predicate RepairedAt(layout: Planner.Layout, db: Database, after: Database, i: nat)
    requires i < |layout.objects|
  {
    var o := layout.objects[i];
    if o.key in db.live then Settled(after, o.key, o.digest) else SameAt(db, after, o.key)
  }

  lemma {:induction false} RepairedLoads(layout: Planner.Layout, db: Database, after: Database, repair: bool)
    requires after.live == db.live
    requires forall i :: 0 <= i < |layout.objects| ==> RepairedAt(layout, db, after, i)
    ensures Loaded(after, Planner.Keys(layout), repair).Ok? <==> repair || AbsentDecodable(layout, db)
  {
    LoadedFromHistory(after, Planner.Keys(layout), repair);
    if AbsentDecodable(layout, db) {
      forall k | k in Planner.Keys(layout) && Latest(after.history, k).Some?
        ensures Decoded(Latest(after.history, k).value.checksum).Some?
      {
        var i :| 0 <= i < |layout.objects| && layout.objects[i].key == k;
        assert RepairedAt(layout, db, after, i) && layout.objects[i] in layout.objects;
      }
    } else {
      var o :| o in layout.objects && o.key !in db.live && Latest(db.history, o.key).Some?
               && Decoded(Latest(db.history, o.key).value.checksum).None?;
      var i :| 0 <= i < |layout.objects| && layout.objects[i] == o;
      assert RepairedAt(layout, db, after, i) && Planner.Keys(layout)[i] in Planner.Keys(layout);
      assert after.history != [];
      assert !Decodable(after, Planner.Keys(layout));
    }
  }

  /** One object with one transition, as small as a repository gets. */
  function OneTable(): Planner.Layout {
    Planner.Layout([Planner.LayoutObject("dbo/tables/t", "dbo", Tables, 2, 0, "t.sql")], [], map[1 := ["t-1.sql"]], map[])
  }

  /** Its definition is on record with another digest, and its only transition as applied. */
  function StuckDatabase(): Database {
    Database(map["dbo/tables/t" := LiveObject(7, None)],
             [Row("dbo/tables/t", ObjectRecord, Hex(1), Applied, Some(7)), Row("t-1.sql", MigrationRecord, Hex(5), Applied, None)],
             ["t-1.sql"])
  }

  lemma {:induction false} StuckDecision() returns (c: Planner.Checksums)
    ensures ProperLayout(OneTable()) && Loaded(StuckDatabase(), Planner.Keys(OneTable()), false) == Ok(c)
    ensures ActionAt(OneTable(), StuckDatabase(), c, 0).ReprocessChanged? && NothingToRun(OneTable(), StuckDatabase(), 0)
  {
    var db := StuckDatabase();
    StuckHistory(db, db.history[0], db.history[1]);
    LoadedFromHistory(db, Planner.Keys(OneTable()), false);
    c := Loaded(db, Planner.Keys(OneTable()), false).value;
    ActionMeans(OneTable(), db, false, c, 0);
  }

  /** A finished migrate of a changed table without a transition left does nothing, and leaves it changed. */
  lemma {:induction false} StuckExample(repo: Repository) returns (c: Planner.Checksums, objects: seq<PlannedObject>)
    ensures Loaded(StuckDatabase(), Planner.Keys(OneTable()), false) == Ok(c) && !LivePlan(OneTable(), StuckDatabase(), {}, c).blocked
    ensures PlannedFrom(OneTable(), StuckDatabase(), c, objects) && objects[0].action.ReprocessChanged?
    ensures RunCompletes(repo, objects, StuckDatabase(), StuckDatabase(), [], [Audit([])])
  {
    var layout, db := OneTable(), StuckDatabase();
    c := StuckDecision();
    StuckPlan(layout, db, c, map[0 := []]);
    MaterializedIsPlanned(layout, db, {}, c, map[0 := []]);
    objects := Materialized(layout, LivePlan(layout, db, {}, c).rows, map[0 := []]);
    StuckRun(repo, objects, db);
  }

  lemma {:induction false} StuckHistory(db: Database, audited: Row, migrated: Row)
    requires db.history == [audited, migrated] && audited.kind.ObjectRecord? && migrated.kind.MigrationRecord? && migrated.event.Applied?
    ensures Latest(db.history, audited.key) == Some(audited) && AppliedRow(db.history, migrated.key) == Some(migrated)
  {
  }

  lemma {:induction false} StuckPlan(layout: Planner.Layout, db: Database, c: Planner.Checksums, pending: map<nat, seq<string>>)
    requires layout == OneTable() && ActionAt(layout, db, c, 0).ReprocessChanged? && pending == map[0 := []]
    requires NothingToRun(layout, db, 0)
    ensures var p := LivePlan(layout, db, {}, c);
            !p.blocked && Filtered(p.rows, p.transitions, AppliedMap(db.history), |p.rows|, pending)
  {
    var p := LivePlan(layout, db, {}, c);
    LivePlanRow(layout, db, {}, c, 0);
    AppliedMapKeys(db.history);
    var paths := ["t-1.sql"];
    assert paths[..0] == [];
    assert Unapplied(paths, AppliedMap(db.history)) == [];
    assert Planner.PathsFor(layout, 0, p.rows[0].action) == Some(paths);
    assert p.transitions == map[0 := paths];
    Planner.CountsAddUp(layout, LiveFacts(layout, db, c), c.drift, 1);
  }

  lemma {:induction false} StuckObjects(objects: seq<PlannedObject>)
    requires |objects| == 1 && Stuck(objects[0])
    ensures Steps(objects) == [] && AdoptRecords(objects) == [] && Batch(objects, true) + Batch(objects, false) == []
  {
  }

  lemma {:induction false} AuditNothing(db: Database)
    ensures ApplyUnits(ApplyUnits(db, []), [Audit([])]) == db
  {
  }

  lemma {:induction false} StuckRun(repo: Repository, objects: seq<PlannedObject>, db: Database)
    requires |objects| == 1 && Stuck(objects[0]) && objects[0].kind.Tables?
    ensures RunCompletes(repo, objects, db, db, [], [Audit([])])
  {
    NothingYet(repo, Batch(objects, true), Batch(objects, false));
    assert [Audit([])][1..] == [];
    StuckObjects(objects);
    AuditNothing(db);
    assert [Audit([])][1..] == [];
  }

  /** An absent object with an undecodable checksum: repair changes nothing, and the next plan is refused. */
  lemma {:induction false} UnrepairableExample() returns (db: Database, c: Planner.Checksums)
    ensures var layout := OneTable();
            && Loaded(db, Planner.Keys(layout), true) == Ok(c)
            && var p := LivePlan(layout, db, {}, c);
               var after := Audited(db, Rewrites(RepairChecksum, Materialized(layout, p.rows, p.transitions)));
               after == db && Loaded(after, Planner.Keys(layout), false).Err?
  {
    var layout, key := OneTable(), "dbo/tables/t";
    var garbled := Row(key, ObjectRecord, Garbled, Applied, None);
    db := Database(map[], [garbled], []);
    LoadedFromHistory(db, Planner.Keys(layout), true);
    LoadedFromHistory(db, Planner.Keys(layout), false);
    c := Loaded(db, Planner.Keys(layout), true).value;
    assert Latest(db.history, key) == Some(garbled) && Planner.Keys(layout)[0] in Planner.Keys(layout);
    ActionMeans(layout, db, true, c, 0);
    var p := LivePlan(layout, db, {}, c);
    LivePlanRow(layout, db, {}, c, 0);
    var objects := Materialized(layout, p.rows, p.transitions);
    assert objects[..0] == [] && Rewrites(RepairChecksum, objects) == [];
    assert db.history + [] == db.history;
  }
}
