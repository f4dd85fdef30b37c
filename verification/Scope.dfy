/**
 Scoped inspection: only objects that may have changed are looked up live, the
 others are taken to exist. The plan is the same as with full inspection if and
 only if they do.
 */
module Scope {
  import opened Prelude
  import opened Domain
  import opened Planner

  /** Objects to look up, and objects merged into the catalog without a lookup. */
  datatype InspectScope = InspectScope(full: bool, hot: set<string>, stable: map<string, CatalogObject>)

  /** Modules, changed files, and objects without a matching audit digest. */
  predicate Hot(o: LayoutObject, delta: set<string>, checksums: Checksums) {
    || IsModule(o.kind) || o.key in delta
    || o.key !in checksums.digests || checksums.digests[o.key] == ZERO_DIGEST || checksums.digests[o.key] != o.digest
  }

  function KeySet(objects: seq<LayoutObject>): set<string> {
    set o | o in objects :: o.key
  }

  /** The first `n` objects are classified: hot ones by key, stable ones with whatever parent name is still known. */
  ghost predicate Split(objects: seq<LayoutObject>, delta: set<string>, checksums: Checksums, n: nat,
                        hot: set<string>, stable: map<string, CatalogObject>)
    requires n <= |objects|
  {
    && (forall i :: 0 <= i < n ==> if Hot(objects[i], delta, checksums) then objects[i].key in hot else objects[i].key in stable)
    && (forall k :: k in hot ==> exists i :: 0 <= i < n && objects[i].key == k && Hot(objects[i], delta, checksums))
    && (forall k :: k in stable ==> exists i :: 0 <= i < n && objects[i].key == k && !Hot(objects[i], delta, checksums))
  }

  /** A usable scope: a full one looks everything up, another leaves out only objects that are not hot. */
  ghost predicate Sound(layout: Layout, delta: set<string>, checksums: Checksums, scope: InspectScope) {
    if scope.full then scope.hot == KeySet(layout.objects) && scope.stable == map[]
    else
      && scope.hot + scope.stable.Keys == KeySet(layout.objects) && scope.hot !! scope.stable.Keys
      && forall o :: o in layout.objects && Hot(o, delta, checksums) ==> o.key in scope.hot
  }

  method Classify(layout: Layout, delta: set<string>, checksums: Checksums, parents: map<string, string>)
    returns (hot: set<string>, stable: map<string, CatalogObject>)
    ensures Split(layout.objects, delta, checksums, |layout.objects|, hot, stable)
  {
    hot, stable := {}, map[];
    for i := 0 to |layout.objects|
      invariant Split(layout.objects, delta, checksums, i, hot, stable)
    {
      var o := layout.objects[i];
      if IsModule(o.kind) {
        hot := hot + {o.key};
        continue;
      }
      if o.key in delta {
        hot := hot + {o.key};
        continue;
      }
      if o.key !in checksums.digests || checksums.digests[o.key] == ZERO_DIGEST || checksums.digests[o.key] != o.digest {
        hot := hot + {o.key};
        continue;
      }
      stable := stable[o.key := CatalogObject(if o.key in parents then Some(parents[o.key]) else None)];
    }
  }

  lemma {:induction false} SplitIsSound(layout: Layout, delta: set<string>, checksums: Checksums,
                                        hot: set<string>, stable: map<string, CatalogObject>, picked: set<string>)
    requires DistinctObjects(layout.objects) && Split(layout.objects, delta, checksums, |layout.objects|, hot, stable)
    ensures Sound(layout, delta, checksums, InspectScope(false, hot + picked * stable.Keys, stable - picked))
  {
  }

  lemma {:induction false} KeySetSize(objects: seq<LayoutObject>)
    ensures |KeySet(objects)| <= |objects|
  {
    if objects != [] {
      var n := |objects| - 1;
      KeySetSize(objects[..n]);
      assert KeySet(objects) == KeySet(objects[..n]) + {objects[n].key} by {
        assert objects == objects[..n] + [objects[n]];
      }
    }
  }

  /** `picked` are the keys the spot check would like to see looked up anyway. */
  method BuildInspectScope(layout: Layout, delta: set<string>, full: bool, checksums: Checksums,
                           parents: map<string, string>, picked: set<string>)
    returns (scope: InspectScope)
    requires DistinctObjects(layout.objects)
    ensures Sound(layout, delta, checksums, scope)
    ensures full ==> scope.full
    ensures !scope.full ==> forall o :: o in layout.objects ==> (o.key in scope.hot <==> Hot(o, delta, checksums) || o.key in picked)
  {
    if full {
      return InspectScope(true, KeySet(layout.objects), map[]);
    }
    var hot, stable := Classify(layout, delta, checksums, parents);
    SplitIsSound(layout, delta, checksums, hot, stable, picked);
    hot, stable := hot + picked * stable.Keys, stable - picked;
    if |hot| == |layout.objects| {
      KeySetSize(layout.objects);
      assert |hot + stable.Keys| == |hot| + |stable.Keys|;
      assert stable.Keys == {};
      return InspectScope(true, hot, map[]);
    }
    return InspectScope(false, hot, stable);
  }

  /** The server's answer for `keys`. */
  function Inspect(live: map<string, CatalogObject>, keys: set<string>): map<string, CatalogObject> {
    map k | k in live && k in keys :: live[k]
  }

  /** Inspected objects win over stable ones. */
  method MergeStableCatalog(objects: map<string, CatalogObject>, stable: map<string, CatalogObject>)
    returns (merged: map<string, CatalogObject>)
    ensures merged == stable + objects
  {
    merged := objects;
    var rest := stable.Keys;
    while rest != {}
      invariant rest <= stable.Keys
      invariant merged.Keys == objects.Keys + (stable.Keys - rest)
      invariant forall k :: k in merged ==> merged[k] == if k in objects then objects[k] else stable[k]
      decreases |rest|
    {
      var k :| k in rest;
      rest := rest - {k};
      if k !in merged {
        merged := merged[k := stable[k]];
      }
    }
  }

  function FullCatalog(layout: Layout, live: map<string, CatalogObject>, schemas: set<string>): Catalog {
    Catalog(schemas, Inspect(live, KeySet(layout.objects)))
  }

  function ScopedCatalog(live: map<string, CatalogObject>, schemas: set<string>, scope: InspectScope): Catalog {
    Catalog(schemas, scope.stable + Inspect(live, scope.hot))
  }

  /** Two readings of the database that differ at most in the parents of objects that are no triggers. */
  ghost predicate SameFacts(layout: Layout, a: Facts, b: Facts) {
    && a.found == b.found && a.present == b.present && a.priors == b.priors && Fits(layout, a) && Fits(layout, b)
    && forall i :: 0 <= i < |layout.objects| && layout.objects[i].kind.Triggers? ==>
         (i + 1 in a.parents <==> i + 1 in b.parents) && (i + 1 in a.parents ==> a.parents[i + 1] == b.parents[i + 1])
  }

  lemma {:induction false} SameDecision(layout: Layout, a: Facts, b: Facts, drift: set<string>, i: nat)
    requires SameFacts(layout, a, b) && i < |layout.objects|
    ensures Decide(layout, a, drift, i) == Decide(layout, b, drift, i)
    ensures Decide(layout, a, drift, i).Blocks() ==> BlockerAt(layout, a, drift, i) == BlockerAt(layout, b, drift, i)
    ensures RowAt(layout, a, drift, i) == RowAt(layout, b, drift, i)
  {
  }

  lemma {:induction false} SameCounts(layout: Layout, a: Facts, b: Facts, drift: set<string>, n: nat)
    requires SameFacts(layout, a, b) && n <= |layout.objects|
    ensures Count(layout, a, drift, n) == Count(layout, b, drift, n)
    ensures Blockers(layout, a, drift, n) == Blockers(layout, b, drift, n)
  {
    if n > 0 {
      SameCounts(layout, a, b, drift, n - 1);
      SameDecision(layout, a, b, drift, n - 1);
    }
  }

  lemma {:induction false} SamePlan(layout: Layout, a: Facts, b: Facts, ca: Catalog, cb: Catalog, drift: set<string>)
    requires SameFacts(layout, a, b) && ca.schemas == cb.schemas
    ensures FreshPlan(layout, a, ca, drift) == FreshPlan(layout, b, cb, drift)
  {
    SameCounts(layout, a, b, drift, |layout.objects|);
    forall i | 0 <= i < |layout.objects|
      ensures RowAt(layout, a, drift, i) == RowAt(layout, b, drift, i)
    {
      SameDecision(layout, a, b, drift, i);
    }
    assert FreshRows(layout, a, drift) == FreshRows(layout, b, drift);
  }

  lemma {:induction false} ScopedFacts(layout: Layout, live: map<string, CatalogObject>, schemas: set<string>,
                                       delta: set<string>, checksums: Checksums, scope: InspectScope)
    requires Sound(layout, delta, checksums, scope) && !scope.full && scope.stable.Keys <= live.Keys
    ensures SameFacts(layout, FactsOf(layout, ScopedCatalog(live, schemas, scope), checksums),
                              FactsOf(layout, FullCatalog(layout, live, schemas), checksums))
  {
  }

  /**
   Scoped inspection gives the plan full inspection gives (actions, side tables,
   counters and blockers) if and only if every object taken to exist does.
   */
  lemma {:induction false} ScopedPlanIsFullPlan(layout: Layout, live: map<string, CatalogObject>, schemas: set<string>,
                                                delta: set<string>, checksums: Checksums, scope: InspectScope)
    requires Sound(layout, delta, checksums, scope) && !scope.full
    ensures var scoped, full := ScopedCatalog(live, schemas, scope), FullCatalog(layout, live, schemas);
            FreshPlan(layout, FactsOf(layout, scoped, checksums), scoped, checksums.drift)
              == FreshPlan(layout, FactsOf(layout, full, checksums), full, checksums.drift)
            <==> scope.stable.Keys <= live.Keys
  {
    var scoped, full := ScopedCatalog(live, schemas, scope), FullCatalog(layout, live, schemas);
    var a, b := FactsOf(layout, scoped, checksums), FactsOf(layout, full, checksums);
    if scope.stable.Keys <= live.Keys {
      ScopedFacts(layout, live, schemas, delta, checksums, scope);
      SamePlan(layout, a, b, scoped, full, checksums.drift);
    } else {
      var k :| k in scope.stable && k !in live;
      assert k in KeySet(layout.objects);
      var i :| 0 <= i < |layout.objects| && layout.objects[i].key == k;
      assert a.found[i] && !b.found[i];
      assert FreshRows(layout, a, checksums.drift)[i].found != FreshRows(layout, b, checksums.drift)[i].found;
    }
  }

  /** The plan of a catalog, apart from its schemas. */
  function ObjectPlan(layout: Layout, catalog: Catalog, checksums: Checksums): PlanView {
    FreshPlan(layout, FactsOf(layout, catalog, checksums), catalog, checksums.drift).(schemas := [])
  }

  lemma {:induction false} ObjectsDecide(layout: Layout, a: Catalog, b: Catalog, checksums: Checksums)
    requires a.objects == b.objects
    ensures ObjectPlan(layout, a, checksums) == ObjectPlan(layout, b, checksums)
  {
    assert Known(layout.objects, a) == Known(layout.objects, b);
    forall row | 0 < row <= |layout.objects|
      ensures ParentOf(layout, a, row) == ParentOf(layout, b, row)
    {
    }
    assert Parents(layout, a, |layout.objects|) == Parents(layout, b, |layout.objects|);
    assert FactsOf(layout, a, checksums) == FactsOf(layout, b, checksums);
  }

  /** The same for a catalog whose objects were looked up in the scope, whatever schemas it lists. */
  lemma {:induction false} ScopedObjectPlan(layout: Layout, live: map<string, CatalogObject>, catalog: Catalog,
                                            delta: set<string>, checksums: Checksums, scope: InspectScope)
    requires Sound(layout, delta, checksums, scope) && catalog.objects == scope.stable + Inspect(live, scope.hot)
    ensures ObjectPlan(layout, catalog, checksums) == ObjectPlan(layout, FullCatalog(layout, live, {}), checksums) <==> scope.stable.Keys <= live.Keys
  {
    var scoped, full := ScopedCatalog(live, {}, scope), FullCatalog(layout, live, {});
    ObjectsDecide(layout, catalog, scoped, checksums);
    if scope.full {
      assert scoped.objects == full.objects;
    } else {
      ScopedPlanIsFullPlan(layout, live, {}, delta, checksums, scope);
      var a, b := FreshPlan(layout, FactsOf(layout, scoped, checksums), scoped, checksums.drift),
                  FreshPlan(layout, FactsOf(layout, full, checksums), full, checksums.drift);
      assert a.schemas == b.schemas;
      assert a == a.(schemas := []).(schemas := a.schemas) && b == b.(schemas := []).(schemas := b.schemas);
    }
  }

  /** What is left unseen is what the planner would skip: an object is looked up unless it is no module, its file did not change and its baseline is current. */
  lemma {:induction false} HotMeans(layout: Layout, delta: set<string>, checksums: Checksums, catalog: Catalog, i: nat)
    requires i < |layout.objects| && layout.objects[i].key in catalog.objects && layout.objects[i].key !in checksums.drift
    ensures Hot(layout.objects[i], delta, checksums) <==>
              || layout.objects[i].kind in {Views, Functions, Procedures, Triggers} || layout.objects[i].key in delta
              || RowAt(layout, FactsOf(layout, catalog, checksums), checksums.drift, i).action != SkipUnchanged
  {
    var o, facts := layout.objects[i], FactsOf(layout, catalog, checksums);
    assert facts.found[i] && facts.priors[i] == if o.key in checksums.digests then Some(checksums.digests[o.key]) else None;
  }
}
