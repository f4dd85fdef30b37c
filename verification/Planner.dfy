/**
 The structural diff: what to do with each object of a layout, given the catalog
 facts and audit digests, and the side tables that go with each row of the plan.
 */
module Planner {
  import opened Prelude
  import opened Domain

  datatype Git = Git(hash: string, author: string, date: string)

  /** One object of the repository; `script` and `path` are the id and the path of its file. */
  datatype LayoutObject = LayoutObject(key: string, schema: string, kind: Kind, digest: nat, script: nat, path: string)

  datatype LayoutSchema = LayoutSchema(name: string, normalized: string)

  /**
   The scanned repository. `paths` maps a 1-based row id to the table's ordered,
   non-empty transition paths, `git` a script id to its provenance.
   */
  datatype Layout = Layout(
    objects: seq<LayoutObject>,
    schemas: seq<LayoutSchema>,
    paths: map<nat, seq<string>>,
    git: map<nat, Git>)

  datatype CatalogObject = CatalogObject(parent: Option<string>)

  datatype Catalog = Catalog(schemas: set<string>, objects: map<string, CatalogObject>)

  /** Audit digests by key, and the keys whose live definition differs from the audited one. */
  datatype Checksums = Checksums(digests: map<string, nat>, drift: set<string>)

  /** The keys of all objects, in row order. */
  function Keys(layout: Layout): (keys: seq<string>)
    ensures |keys| == |layout.objects| && forall i :: 0 <= i < |keys| ==> keys[i] == layout.objects[i].key
  {
    seq(|layout.objects|, i requires 0 <= i < |layout.objects| => layout.objects[i].key)
  }

  /** No two objects share a key. */
  ghost predicate DistinctObjects(objects: seq<LayoutObject>) {
    forall i, j :: 0 <= i < j < |objects| ==> objects[i].key != objects[j].key
  }

  /** The 1-based row of `key`, 0 when absent. */
  function RowOf(objects: seq<LayoutObject>, key: string): (row: nat)
    ensures row <= |objects|
    ensures row > 0 ==> objects[row - 1].key == key
    ensures row == 0 ==> forall o :: o in objects ==> o.key != key
  {
    if objects == [] then 0
    else if objects[|objects| - 1].key == key then |objects|
    else RowOf(objects[..|objects| - 1], key)
  }

  function ParentRow(layout: Layout, o: LayoutObject, parent: string): nat {
    RowOf(layout.objects, o.schema + "/tables/" + parent)
  }

  /** What the database says about each row. */
  datatype Facts = Facts(found: seq<bool>, present: seq<bool>, parents: map<nat, nat>, priors: seq<Option<nat>>)

  function Known(objects: seq<LayoutObject>, catalog: Catalog): seq<bool> {
    seq(|objects|, i requires 0 <= i < |objects| => objects[i].key in catalog.objects)
  }

  /** The recorded parent of a 1-based row: the parent's row, 0 when the layout does not hold it. */
  function ParentOf(layout: Layout, catalog: Catalog, row: nat): Option<nat>
    requires 0 < row <= |layout.objects|
  {
    var o := layout.objects[row - 1];
    if o.key in catalog.objects && catalog.objects[o.key].parent.Some?
    then Some(ParentRow(layout, o, catalog.objects[o.key].parent.value)) else None
  }

  function Parents(layout: Layout, catalog: Catalog, n: nat): map<nat, nat>
    requires n <= |layout.objects|
  {
    map row | 0 < row <= n && ParentOf(layout, catalog, row).Some? :: ParentOf(layout, catalog, row).value
  }

  lemma {:induction false} OneMoreParent(layout: Layout, catalog: Catalog, n: nat)
    requires n < |layout.objects|
    ensures Parents(layout, catalog, n + 1) ==
            match ParentOf(layout, catalog, n + 1) {
              case Some(parent) => Parents(layout, catalog, n)[n + 1 := parent]
              case None => Parents(layout, catalog, n)
            }
  {
  }

  function Priors(objects: seq<LayoutObject>, checksums: Checksums): seq<Option<nat>> {
    seq(|objects|, i requires 0 <= i < |objects| =>
      if objects[i].key in checksums.digests then Some(checksums.digests[objects[i].key]) else None)
  }

  function FactsOf(layout: Layout, catalog: Catalog, checksums: Checksums): Facts {
    Facts(Known(layout.objects, catalog), Known(layout.objects, catalog),
          Parents(layout, catalog, |layout.objects|), Priors(layout.objects, checksums))
  }

  datatype Scenario =
    | Create
    | Adopt
    | Unchanged
    | TableReprocess
    | TableBlockedNoTransitions
    | TriggerUpdateModule
    | TriggerBlockedParentMissing
    | TriggerBlockedParentChanging
    | ModuleUpdate
    | Reprocess
    | StructuralChangeBlocked
    | LiveStructuralDriftBlocked
  {
    function Action(): Action {
      match this
      case Create => CreateObject
      case Adopt => AdoptExisting
      case Unchanged => SkipUnchanged
      case TableReprocess => ReprocessChanged
      case Reprocess => ReprocessChanged
      case StructuralChangeBlocked => Fail
      case LiveStructuralDriftBlocked => Fail
      case TableBlockedNoTransitions => ReprocessChangedBlocked
      case TriggerBlockedParentMissing => ReprocessChangedBlocked
      case TriggerBlockedParentChanging => ReprocessChangedBlocked
      case TriggerUpdateModule => UpdateExistingModule
      case ModuleUpdate => UpdateExistingModule
    }

    predicate WithGit() {
      !Unchanged?
    }

    predicate Blocks() {
      || TableBlockedNoTransitions? || StructuralChangeBlocked? || LiveStructuralDriftBlocked?
      || TriggerBlockedParentMissing? || TriggerBlockedParentChanging?
    }
  }

  lemma {:induction false} BlockingActions(s: Scenario)
    ensures s.Blocks() <==> s.Action().Fail? || s.Action().ReprocessChangedBlocked?
  {
  }

  function ChangedDefault(kind: Kind): Scenario {
    if IsModule(kind) then ModuleUpdate else StructuralChangeBlocked
  }

  function ResolveChanged(kind: Kind, facts: Facts, row: nat, hasPaths: bool): Scenario {
    match kind
    case Tables => if hasPaths then TableReprocess else TableBlockedNoTransitions
    case Triggers =>
      if row !in facts.parents then ChangedDefault(kind)
      else
        var parent := facts.parents[row];
        if parent == 0 then TriggerBlockedParentMissing
        else if parent > |facts.present| || !facts.present[parent - 1] then TriggerBlockedParentMissing
        else if parent > |facts.priors| || facts.priors[parent - 1].GetOr(ZERO_DIGEST) == ZERO_DIGEST then TriggerBlockedParentChanging
        else TriggerUpdateModule
    case _ => ChangedDefault(kind)
  }

  function Resolve(found: bool, prior: Option<nat>, digest: nat, kind: Kind, facts: Facts, row: nat, hasPaths: bool, drift: bool): Scenario {
    if !found then Create
    else if prior.None? || prior == Some(ZERO_DIGEST) then Adopt
    else if drift then (if IsModule(kind) then ModuleUpdate else LiveStructuralDriftBlocked)
    else if prior == Some(digest) then Unchanged
    else ResolveChanged(kind, facts, row, hasPaths)
  }

  /** The trigger's recorded parent is missing from the layout or the database, or has no baseline. */
  predicate ParentUnready(facts: Facts, row: nat) {
    && row in facts.parents
    && var parent := facts.parents[row];
       || parent == 0 || parent > |facts.present| || !facts.present[parent - 1]
       || parent > |facts.priors| || facts.priors[parent - 1].GetOr(ZERO_DIGEST) == ZERO_DIGEST
  }

  /** The decision table: when each action is planned, and only then. */
  lemma {:induction false} ResolveMeans(found: bool, prior: Option<nat>, digest: nat, kind: Kind, facts: Facts, row: nat, hasPaths: bool, drift: bool)
    requires digest != ZERO_DIGEST
    ensures var action := Resolve(found, prior, digest, kind, facts, row, hasPaths, drift).Action();
            var tracked := found && prior.GetOr(ZERO_DIGEST) != ZERO_DIGEST;
            var changed := tracked && !drift && prior != Some(digest);
            var unready := kind.Triggers? && ParentUnready(facts, row);
            && (action.CreateObject? <==> !found)
            && (action.AdoptExisting? <==> found && !tracked)
            && (action.SkipUnchanged? <==> found && prior == Some(digest) && !drift)
            && (action.ReprocessChanged? <==> changed && kind.Tables? && hasPaths)
            && (action.UpdateExistingModule? <==> IsModule(kind) && ((tracked && drift) || (changed && !unready)))
            && (action.ReprocessChangedBlocked? <==> changed && ((kind.Tables? && !hasPaths) || unready))
            && (action.Fail? <==> !IsModule(kind) && ((tracked && drift) || (changed && !kind.Tables?)))
  {
  }

  /** Facts for every row of the layout. */
  predicate Fits(layout: Layout, facts: Facts) {
    |facts.found| == |facts.priors| == |layout.objects|
  }

  /** The decision for row `i`. */
  function Decide(layout: Layout, facts: Facts, drift: set<string>, i: nat): Scenario
    requires i < |layout.objects| && Fits(layout, facts)
  {
    var o := layout.objects[i];
    Resolve(facts.found[i], facts.priors[i], o.digest, o.kind, facts, i + 1,
            o.kind.Tables? && i + 1 in layout.paths, o.key in drift)
  }

  lemma {:induction false} DecideMeans(layout: Layout, facts: Facts, drift: set<string>, i: nat, found: bool, prior: Option<nat>)
    requires i < |layout.objects| && Fits(layout, facts) && layout.objects[i].digest != ZERO_DIGEST
    requires found == facts.found[i] && prior == facts.priors[i]
    ensures var o := layout.objects[i];
            var action := Decide(layout, facts, drift, i).Action();
            && (action.SkipUnchanged? <==> found && prior == Some(o.digest) && o.key !in drift)
            && (action.CreateObject? <==> !found)
            && (action.ReprocessChanged? <==>
                  found && prior.GetOr(ZERO_DIGEST) != ZERO_DIGEST && prior != Some(o.digest) && o.key !in drift
                  && o.kind.Tables? && i + 1 in layout.paths)
  {
  }

  /** Why a plan is blocked; for a trigger, the parent's row when one is recorded. */
  datatype Blocker = Blocker(scenario: Scenario, key: string, parent: Option<nat>)

  function ParentLabel(facts: Facts, row: nat): Option<nat> {
    if row in facts.parents && facts.parents[row] > 0 then Some(facts.parents[row]) else None
  }

  function BlockerAt(layout: Layout, facts: Facts, drift: set<string>, i: nat): Blocker
    requires i < |layout.objects| && Fits(layout, facts)
  {
    var scenario := Decide(layout, facts, drift, i);
    Blocker(scenario, layout.objects[i].key,
            if scenario.TriggerBlockedParentMissing? || scenario.TriggerBlockedParentChanging?
            then ParentLabel(facts, i + 1) else None)
  }

  /** Blockers of the first `n` rows. */
  function Blockers(layout: Layout, facts: Facts, drift: set<string>, n: nat): seq<Blocker>
    requires n <= |layout.objects| && Fits(layout, facts)
  {
    if n == 0 then []
    else Blockers(layout, facts, drift, n - 1)
         + if Decide(layout, facts, drift, n - 1).Blocks() then [BlockerAt(layout, facts, drift, n - 1)] else []
  }

  datatype Counters = Counters(create: nat, adopt: nat, skip: nat, changed: nat, blocked: nat) {
    function Plus(s: Scenario): Counters {
      Counters(
        create + (if s.Create? then 1 else 0),
        adopt + (if s.Adopt? then 1 else 0),
        skip + (if s.Unchanged? then 1 else 0),
        changed + (if s.Create? || s.Adopt? || s.Unchanged? then 0 else 1),
        blocked + (if s.Blocks() then 1 else 0))
    }
  }

  function Count(layout: Layout, facts: Facts, drift: set<string>, n: nat): Counters
    requires n <= |layout.objects| && Fits(layout, facts)
  {
    if n == 0 then Counters(0, 0, 0, 0, 0) else Count(layout, facts, drift, n - 1).Plus(Decide(layout, facts, drift, n - 1))
  }

  datatype Row = Row(action: Action, found: bool, digest: nat)

  const EMPTY_ROW := Row(SkipUnchanged, false, ZERO_DIGEST)

  function RowAt(layout: Layout, facts: Facts, drift: set<string>, i: nat): Row
    requires i < |layout.objects| && Fits(layout, facts)
  {
    Row(Decide(layout, facts, drift, i).Action(), facts.found[i], layout.objects[i].digest)
  }

  /** The side-table entries a row carries depend on its action alone. */
  function GitFor(layout: Layout, i: nat, action: Action): Option<Git>
    requires i < |layout.objects|
  {
    var script := layout.objects[i].script;
    if !action.SkipUnchanged? && script in layout.git && layout.git[script] != Git("", "", "")
    then Some(layout.git[script]) else None
  }

  function PathsFor(layout: Layout, i: nat, action: Action): Option<seq<string>> {
    if action.ReprocessChanged? && i + 1 in layout.paths then Some(layout.paths[i + 1]) else None
  }

  /** The side tables of a plan whose rows have the given actions. */
  function GitTable(layout: Layout, rows: seq<Row>): map<nat, Git>
    requires |rows| <= |layout.objects|
  {
    map i | 0 <= i < |rows| && GitFor(layout, i, rows[i].action).Some? :: GitFor(layout, i, rows[i].action).value
  }

  function PathTable(layout: Layout, rows: seq<Row>): map<nat, seq<string>> {
    map i | 0 <= i < |rows| && PathsFor(layout, i, rows[i].action).Some? :: PathsFor(layout, i, rows[i].action).value
  }

  lemma {:induction false} GitTableUpdate(layout: Layout, rows: seq<Row>, i: nat, row: Row)
    requires i < |rows| <= |layout.objects|
    ensures GitTable(layout, rows[i := row]) ==
            match GitFor(layout, i, row.action) {
              case Some(git) => GitTable(layout, rows)[i := git]
              case None => GitTable(layout, rows) - {i}
            }
  {
  }

  lemma {:induction false} PathTableUpdate(layout: Layout, rows: seq<Row>, i: nat, row: Row)
    requires i < |rows|
    ensures PathTable(layout, rows[i := row]) ==
            match PathsFor(layout, i, row.action) {
              case Some(paths) => PathTable(layout, rows)[i := paths]
              case None => PathTable(layout, rows) - {i}
            }
  {
  }

  datatype PlannedSchema = PlannedSchema(name: string, action: SchemaAction)

  function SchemaAt(layout: Layout, catalog: Catalog, i: nat): PlannedSchema
    requires i < |layout.schemas|
  {
    PlannedSchema(layout.schemas[i].name,
                  if layout.schemas[i].normalized in catalog.schemas then SchemaExists else CreateSchema)
  }

  datatype Summary = Summary(schemas: nat, objects: nat, counters: Counters)

  /** A plan as a value. */
  datatype PlanView = PlanView(
    rows: seq<Row>,
    git: map<nat, Git>,
    transitions: map<nat, seq<string>>,
    schemas: seq<PlannedSchema>,
    blocked: bool,
    blockers: seq<Blocker>,
    summary: Summary)

  function FreshRows(layout: Layout, facts: Facts, drift: set<string>): seq<Row>
    requires Fits(layout, facts)
  {
    seq(|layout.objects|, i requires 0 <= i < |layout.objects| => RowAt(layout, facts, drift, i))
  }

  /** The plan for a layout, from scratch. */
  function FreshPlan(layout: Layout, facts: Facts, catalog: Catalog, drift: set<string>): PlanView
    requires Fits(layout, facts)
  {
    var n := |layout.objects|;
    var rows := FreshRows(layout, facts, drift);
    PlanView(
      rows, GitTable(layout, rows), PathTable(layout, rows),
      seq(|layout.schemas|, i requires 0 <= i < |layout.schemas| => SchemaAt(layout, catalog, i)),
      Count(layout, facts, drift, n).blocked > 0, Blockers(layout, facts, drift, n),
      Summary(|layout.schemas|, n, Count(layout, facts, drift, n)))
  }

  /** Existence is recorded for the first `i` objects. */
  ghost predicate Marked(objects: seq<LayoutObject>, catalog: Catalog, i: nat, found: seq<bool>, present: seq<bool>) {
    && i <= |objects| == |found| == |present|
    && found[..i] == present[..i] == Known(objects, catalog)[..i]
    && forall k :: i <= k < |present| ==> !present[k]
  }

  lemma {:induction false} MarkOne(objects: seq<LayoutObject>, catalog: Catalog, i: nat, found: seq<bool>, present: seq<bool>)
    requires i < |objects| && Marked(objects, catalog, i, found, present)
    ensures var known := objects[i].key in catalog.objects;
            Marked(objects, catalog, i + 1, found[i := known], if known then present[i := true] else present)
  {
  }

  /** The mutable part of a workspace: facts applied to a fixed layout. */
  class Workspace {
    const layout: Layout
    var found: seq<bool>
    var catalogRow: seq<bool>
    var parents: map<nat, nat>
    var priors: seq<Option<nat>>
    var catalogApplied: bool
    var checksumsApplied: bool

    constructor (layout: Layout)
      ensures this.layout == layout && Cleared()
    {
      this.layout := layout;
      found := seq(|layout.objects|, _ => false);
      catalogRow, parents, priors := [], map[], [];
      catalogApplied, checksumsApplied := false, false;
    }

    /** No facts are recorded. */
    ghost predicate Cleared()
      reads this
    {
      && !catalogApplied && !checksumsApplied
      && found == seq(|layout.objects|, _ => false)
      && catalogRow == [] && parents == map[] && priors == []
    }

    /** Facts are recorded for every row or for none. */
    ghost predicate Valid()
      reads this
    {
      && |found| == |layout.objects|
      && (!catalogApplied ==> catalogRow == [] && parents == map[])
      && (if checksumsApplied then |priors| == |layout.objects| else priors == [])
    }

    function StoredFacts(): Facts
      reads this
    {
      Facts(found, catalogRow, parents, priors)
    }

    method InvalidateCatalogFacts()
      modifies this
      ensures Cleared()
    {
      catalogApplied, checksumsApplied := false, false;
      parents, priors, catalogRow := map[], [], [];
      found := seq(|layout.objects|, _ => false);
    }

    method ApplyCatalogIfNeeded(catalog: Catalog)
      requires catalogApplied || (|found| == |layout.objects| && catalogRow == [] && parents == map[])
      modifies this`found, this`catalogRow, this`parents, this`catalogApplied
      ensures catalogApplied
      ensures old(catalogApplied) ==>
                found == old(found) && catalogRow == old(catalogRow) && parents == old(parents)
      ensures !old(catalogApplied) ==>
                && found == Known(layout.objects, catalog) && catalogRow == Known(layout.objects, catalog)
                && parents == Parents(layout, catalog, |layout.objects|)
    {
      if catalogApplied {
        return;
      }
      var n := |layout.objects|;
      catalogRow := seq(n, _ => false);
      var i := 0;
      while i < n
        invariant 0 <= i <= n
        invariant Marked(layout.objects, catalog, i, found, catalogRow)
        invariant parents == Parents(layout, catalog, i)
      {
        var o := layout.objects[i];
        var inCatalog := o.key in catalog.objects;
        MarkOne(layout.objects, catalog, i, found, catalogRow);
        found := found[i := inCatalog];
        if inCatalog {
          catalogRow := catalogRow[i := true];
        }
        OneMoreParent(layout, catalog, i);
        if o.key in catalog.objects && catalog.objects[o.key].parent.Some? {
          parents := parents[i + 1 := ParentRow(layout, o, catalog.objects[o.key].parent.value)];
        }
        i := i + 1;
      }
      assert found[..i] == found && catalogRow[..i] == catalogRow && Known(layout.objects, catalog)[..i] == Known(layout.objects, catalog);
      catalogApplied := true;
    }

    method ApplyChecksumsIfNeeded(checksums: Checksums)
      requires checksumsApplied || priors == []
      modifies this`priors, this`checksumsApplied
      ensures checksumsApplied
      ensures priors == if old(checksumsApplied) then old(priors) else Priors(layout.objects, checksums)
    {
      if checksumsApplied {
        return;
      }
      var n := |layout.objects|;
      priors := seq(n, _ => None);
      var i := 0;
      while i < n
        invariant 0 <= i <= n && |priors| == n
        invariant forall k :: 0 <= k < i ==> priors[k] == Priors(layout.objects, checksums)[k]
        invariant forall k :: i <= k < n ==> priors[k].None?
      {
        if layout.objects[i].key in checksums.digests {
          priors := priors[i := Some(checksums.digests[layout.objects[i].key])];
        }
        i := i + 1;
      }
      checksumsApplied := true;
    }
  }

  /** A plan that is filled in place, again and again. */
  class MigrationPlan {
    var rows: seq<Row>
    var git: map<nat, Git>
    var transitions: map<nat, seq<string>>
    var schemas: seq<PlannedSchema>
    var blocked: bool
    var blockers: seq<Blocker>
    var summary: Summary

    constructor ()
      ensures rows == [] && git == map[] && transitions == map[]
    {
      rows, git, transitions, schemas := [], map[], map[], [];
      blocked, blockers := false, [];
      summary := Summary(0, 0, Counters(0, 0, 0, 0, 0));
    }

    function View(): PlanView
      reads this
    {
      PlanView(rows, git, transitions, schemas, blocked, blockers, summary)
    }

    /** Left by an earlier diff of this layout, or never filled. */
    ghost predicate Coherent(layout: Layout)
      reads this
    {
      && (rows == [] || |rows| == |layout.objects|)
      && git == GitTable(layout, rows) && transitions == PathTable(layout, rows)
    }

    /** Skips the write when action, existence and digest are unchanged. */
    method FillRow(layout: Layout, i: nat, scenario: Scenario, found: bool)
      requires i < |rows| == |layout.objects|
      requires git == GitTable(layout, rows) && transitions == PathTable(layout, rows)
      modifies this`rows, this`git, this`transitions
      ensures rows == old(rows)[i := Row(scenario.Action(), found, layout.objects[i].digest)]
      ensures git == GitTable(layout, rows) && transitions == PathTable(layout, rows)
    {
      var action := scenario.Action();
      var digest := layout.objects[i].digest;
      if rows[i].action == action && rows[i].found == found && rows[i].digest == digest {
        return;
      }
      GitTableUpdate(layout, rows, i, Row(action, found, digest));
      PathTableUpdate(layout, rows, i, Row(action, found, digest));
      rows := rows[i := Row(action, found, digest)];
      if scenario.WithGit() {
        var script := layout.objects[i].script;
        if script in layout.git && layout.git[script] != Git("", "", "") {
          git := git[i := layout.git[script]];
        } else {
          git := git - {i};
        }
      } else {
        git := git - {i};
      }
      if action.ReprocessChanged? {
        if i + 1 in layout.paths {
          transitions := transitions[i := layout.paths[i + 1]];
        } else {
          transitions := transitions - {i};
        }
      } else {
        transitions := transitions - {i};
      }
    }
  }

  function Resized<T>(xs: seq<T>, n: nat, fill: T): (ys: seq<T>)
    ensures |ys| == n
  {
    if n <= |xs| then xs[..n] else xs + seq(n - |xs|, _ => fill)
  }

  /** Rows not yet decided carry no side-table entries. */
  lemma {:induction false} ResizeKeepsTables(layout: Layout, rows: seq<Row>)
    requires rows == [] || |rows| == |layout.objects|
    ensures var resized := Resized(rows, |layout.objects|, EMPTY_ROW);
            GitTable(layout, resized) == GitTable(layout, rows) && PathTable(layout, resized) == PathTable(layout, rows)
  {
  }

  /** In the database, with a baseline to compare with. */
  predicate Tracked(facts: Facts, i: nat)
    requires i < |facts.found| == |facts.priors|
  {
    facts.found[i] && facts.priors[i].GetOr(ZERO_DIGEST) != ZERO_DIGEST
  }

  predicate Edited(layout: Layout, facts: Facts, drift: set<string>, i: nat)
    requires i < |layout.objects| && Fits(layout, facts)
  {
    Tracked(facts, i) && (layout.objects[i].key in drift || facts.priors[i] != Some(layout.objects[i].digest))
  }

  /**
   An edited object nothing can be done about: changed behind the tool's back and
   not replaceable in place, a table without transitions, a trigger whose table is
   not settled, or any other kind that is no module.
   */
  predicate Hopeless(layout: Layout, facts: Facts, drift: set<string>, i: nat)
    requires i < |layout.objects| && Fits(layout, facts)
  {
    var o := layout.objects[i];
    && Edited(layout, facts, drift, i)
    && if o.key in drift || (!o.kind.Tables? && !o.kind.Triggers?) then !IsModule(o.kind)
       else if o.kind.Tables? then i + 1 !in layout.paths
       else ParentUnready(facts, i + 1)
  }

  /** The one counter a row adds to, and whether it blocks, from the facts alone. */
  lemma {:induction false} DecisionMeans(layout: Layout, facts: Facts, drift: set<string>, i: nat)
    requires i < |layout.objects| && Fits(layout, facts)
    ensures var s := Decide(layout, facts, drift, i);
            && (s.Create? <==> !facts.found[i])
            && (s.Adopt? <==> facts.found[i] && !Tracked(facts, i))
            && (s.Unchanged? <==> Tracked(facts, i) && !Edited(layout, facts, drift, i))
            && (s.Blocks() <==> Hopeless(layout, facts, drift, i))
  {
  }

  /** One row counted, by what the facts say of it: in exactly one of the four action counters. */
  function Tallied(layout: Layout, facts: Facts, drift: set<string>, i: nat, c: Counters): Counters
    requires i < |layout.objects| && Fits(layout, facts)
  {
    var blocked := c.blocked + if Hopeless(layout, facts, drift, i) then 1 else 0;
    if !facts.found[i] then c.(create := c.create + 1, blocked := blocked)
    else if !Tracked(facts, i) then c.(adopt := c.adopt + 1, blocked := blocked)
    else if !Edited(layout, facts, drift, i) then c.(skip := c.skip + 1, blocked := blocked)
    else c.(changed := c.changed + 1, blocked := blocked)
  }

  /** Why a hopeless row is hopeless. */
  function Reason(layout: Layout, facts: Facts, drift: set<string>, i: nat): Scenario
    requires i < |layout.objects| && Fits(layout, facts) && Hopeless(layout, facts, drift, i)
  {
    var o := layout.objects[i];
    if o.key in drift then LiveStructuralDriftBlocked
    else if o.kind.Tables? then TableBlockedNoTransitions
    else if !o.kind.Triggers? then StructuralChangeBlocked
    else
      var parent := facts.parents[i + 1];
      if 0 < parent <= |facts.present| && facts.present[parent - 1] then TriggerBlockedParentChanging else TriggerBlockedParentMissing
  }

  /** What is reported of a hopeless row: why, its key and, for a trigger stopped by its table, the table's row. */
  function Reported(layout: Layout, facts: Facts, drift: set<string>, i: nat): seq<Blocker>
    requires i < |layout.objects| && Fits(layout, facts)
  {
    var o := layout.objects[i];
    if !Hopeless(layout, facts, drift, i) then []
    else if o.kind.Triggers? && o.key !in drift && facts.parents[i + 1] > 0
    then [Blocker(Reason(layout, facts, drift, i), o.key, Some(facts.parents[i + 1]))]
    else [Blocker(Reason(layout, facts, drift, i), o.key, None)]
  }

  lemma {:induction false} TallyMeans(layout: Layout, facts: Facts, drift: set<string>, i: nat, c: Counters)
    requires i < |layout.objects| && Fits(layout, facts)
    ensures var s := Decide(layout, facts, drift, i);
            && c.Plus(s) == Tallied(layout, facts, drift, i, c)
            && Reported(layout, facts, drift, i) == if s.Blocks() then [BlockerAt(layout, facts, drift, i)] else []
  {
  }

  /**
   Decides one row, counts it, and records the blocker if there is one: the row
   goes into exactly one of the four action counters, and it blocks the plan
   exactly if it is hopeless.
   */
  method DecideObjectAt(ws: Workspace, i: nat, drift: set<string>, counters: Counters, plan: MigrationPlan)
    returns (scenario: Scenario, counted: Counters)
    requires i < |ws.layout.objects| && Fits(ws.layout, ws.StoredFacts())
    modifies plan`blocked, plan`blockers
    ensures scenario == Decide(ws.layout, ws.StoredFacts(), drift, i)
    ensures counted == Tallied(ws.layout, ws.StoredFacts(), drift, i, counters)
    ensures plan.blocked == (old(plan.blocked) || Hopeless(ws.layout, ws.StoredFacts(), drift, i))
    ensures plan.blockers == old(plan.blockers) + Reported(ws.layout, ws.StoredFacts(), drift, i)
  {
    var facts := ws.StoredFacts();
    scenario := Decide(ws.layout, facts, drift, i);
    counted := counters.Plus(scenario);
    DecisionMeans(ws.layout, facts, drift, i);
    TallyMeans(ws.layout, facts, drift, i, counters);
    if scenario.Blocks() {
      plan.blocked := true;
      plan.blockers := plan.blockers + [BlockerAt(ws.layout, facts, drift, i)];
    }
  }

  method FillSchemas(layout: Layout, catalog: Catalog, plan: MigrationPlan)
    modifies plan`schemas
    ensures plan.schemas == seq(|layout.schemas|, i requires 0 <= i < |layout.schemas| => SchemaAt(layout, catalog, i))
  {
    var n := |layout.schemas|;
    plan.schemas := Resized(plan.schemas, n, PlannedSchema("", SchemaExists));
    var i := 0;
    while i < n
      invariant 0 <= i <= n && |plan.schemas| == n
      invariant forall k :: 0 <= k < i ==> plan.schemas[k] == SchemaAt(layout, catalog, k)
    {
      var slot := plan.schemas[i];
      if slot.name != layout.schemas[i].name {
        slot := slot.(name := layout.schemas[i].name);
      }
      var action := if layout.schemas[i].normalized in catalog.schemas then SchemaExists else CreateSchema;
      if slot.action != action {
        slot := slot.(action := action);
      }
      plan.schemas := plan.schemas[i := slot];
      i := i + 1;
    }
  }

  /** The first `i` rows are decided. */
  ghost predicate Decided(layout: Layout, facts: Facts, drift: set<string>, i: nat, rows: seq<Row>,
                          counters: Counters, blocked: bool, blockers: seq<Blocker>)
    requires Fits(layout, facts)
  {
    && i <= |rows| == |layout.objects|
    && (forall k :: 0 <= k < i ==> rows[k] == RowAt(layout, facts, drift, k))
    && counters == Count(layout, facts, drift, i) && blocked == (counters.blocked > 0)
    && blockers == Blockers(layout, facts, drift, i)
  }

  lemma {:induction false} DecidedOne(layout: Layout, facts: Facts, drift: set<string>, i: nat, rows: seq<Row>,
                                      counters: Counters, blocked: bool, blockers: seq<Blocker>)
    requires Fits(layout, facts) && i < |layout.objects| && Decided(layout, facts, drift, i, rows, counters, blocked, blockers)
    ensures Decided(layout, facts, drift, i + 1, rows[i := RowAt(layout, facts, drift, i)],
                    Tallied(layout, facts, drift, i, counters), blocked || Hopeless(layout, facts, drift, i),
                    blockers + Reported(layout, facts, drift, i))
  {
  }

  method DecideRow(ws: Workspace, i: nat, drift: set<string>, counters: Counters, plan: MigrationPlan) returns (counted: Counters)
    requires Fits(ws.layout, ws.StoredFacts()) && i < |ws.layout.objects| && plan.Coherent(ws.layout)
    requires Decided(ws.layout, ws.StoredFacts(), drift, i, plan.rows, counters, plan.blocked, plan.blockers)
    modifies plan`rows, plan`git, plan`transitions, plan`blocked, plan`blockers
    ensures Decided(ws.layout, ws.StoredFacts(), drift, i + 1, plan.rows, counted, plan.blocked, plan.blockers)
    ensures plan.Coherent(ws.layout)
  {
    DecidedOne(ws.layout, ws.StoredFacts(), drift, i, plan.rows, counters, plan.blocked, plan.blockers);
    var scenario;
    scenario, counted := DecideObjectAt(ws, i, drift, counters, plan);
    plan.FillRow(ws.layout, i, scenario, ws.found[i]);
  }

  lemma {:induction false} NoneDecided(layout: Layout, facts: Facts, drift: set<string>, rows: seq<Row>)
    requires Fits(layout, facts) && |rows| == |layout.objects|
    ensures Decided(layout, facts, drift, 0, rows, Counters(0, 0, 0, 0, 0), false, [])
  {
  }

  lemma {:induction false} AllDecided(layout: Layout, facts: Facts, drift: set<string>, rows: seq<Row>,
                                      counters: Counters, blocked: bool, blockers: seq<Blocker>)
    requires Fits(layout, facts) && Decided(layout, facts, drift, |layout.objects|, rows, counters, blocked, blockers)
    ensures rows == FreshRows(layout, facts, drift)
    ensures counters == Count(layout, facts, drift, |layout.objects|) && blocked == (counters.blocked > 0)
    ensures blockers == Blockers(layout, facts, drift, |layout.objects|)
  {
  }

  /** Decides every row in order, filling the plan as it goes. */
  method DecideRows(ws: Workspace, drift: set<string>, plan: MigrationPlan) returns (counters: Counters)
    requires Fits(ws.layout, ws.StoredFacts())
    requires |plan.rows| == |ws.layout.objects| && plan.Coherent(ws.layout) && !plan.blocked && plan.blockers == []
    modifies plan`rows, plan`git, plan`transitions, plan`blocked, plan`blockers
    ensures plan.rows == FreshRows(ws.layout, ws.StoredFacts(), drift) && plan.Coherent(ws.layout)
    ensures counters == Count(ws.layout, ws.StoredFacts(), drift, |ws.layout.objects|) && plan.blocked == (counters.blocked > 0)
    ensures plan.blockers == Blockers(ws.layout, ws.StoredFacts(), drift, |ws.layout.objects|)
  {
    counters := Counters(0, 0, 0, 0, 0);
    ghost var facts := ws.StoredFacts();
    NoneDecided(ws.layout, facts, drift, plan.rows);
    var i := 0;
    while i < |ws.layout.objects|
      invariant 0 <= i <= |ws.layout.objects|
      invariant true == Decided(ws.layout, facts, drift, i, plan.rows, counters, plan.blocked, plan.blockers)
      invariant plan.Coherent(ws.layout)
    {
      counters := DecideRow(ws, i, drift, counters, plan);
      i := i + 1;
    }
    AllDecided(ws.layout, facts, drift, plan.rows, counters, plan.blocked, plan.blockers);
  }

  method ApplyFacts(ws: Workspace, catalog: Catalog, checksums: Checksums)
    requires ws.Valid()
    modifies ws
    ensures ws.Valid() && ws.catalogApplied && ws.checksumsApplied && Fits(ws.layout, ws.StoredFacts())
    ensures old(ws.catalogApplied && ws.checksumsApplied) ==> ws.StoredFacts() == old(ws.StoredFacts())
    ensures old(ws.Cleared()) ==> ws.StoredFacts() == FactsOf(ws.layout, catalog, checksums)
  {
    ws.ApplyCatalogIfNeeded(catalog);
    ws.ApplyChecksumsIfNeeded(checksums);
  }

  /**
   Fills `plan` in place. Whatever an earlier diff of the same layout left in it,
   the outcome is the plan a fresh diff computes from the facts in force: those
   already applied to the workspace, else those of `catalog` and `checksums`.
   */
  method ComputeDiffInto(ws: Workspace, catalog: Catalog, checksums: Checksums, plan: MigrationPlan)
    requires ws.Valid() && plan.Coherent(ws.layout)
    modifies ws, plan
    ensures ws.Valid() && ws.catalogApplied && ws.checksumsApplied && plan.Coherent(ws.layout)
    ensures plan.View() == FreshPlan(ws.layout, ws.StoredFacts(), catalog, checksums.drift)
    ensures old(ws.catalogApplied && ws.checksumsApplied) ==> ws.StoredFacts() == old(ws.StoredFacts())
    ensures old(ws.Cleared()) ==>
              plan.View() == FreshPlan(ws.layout, FactsOf(ws.layout, catalog, checksums), catalog, checksums.drift)
  {
    ApplyFacts(ws, catalog, checksums);
    ResizeKeepsTables(ws.layout, plan.rows);
    plan.blocked, plan.blockers := false, [];
    plan.rows := Resized(plan.rows, |ws.layout.objects|, EMPTY_ROW);
    FillSchemas(ws.layout, catalog, plan);
    var counters := DecideRows(ws, checksums.drift, plan);
    plan.summary := Summary(|ws.layout.schemas|, |ws.layout.objects|, counters);
  }

  lemma {:induction false} CountsAddUp(layout: Layout, facts: Facts, drift: set<string>, n: nat)
    requires n <= |layout.objects| && Fits(layout, facts)
    ensures var c := Count(layout, facts, drift, n);
            c.create + c.adopt + c.skip + c.changed == n && c.blocked == |Blockers(layout, facts, drift, n)| <= c.changed
    ensures Count(layout, facts, drift, n).blocked == 0 <==> forall i :: 0 <= i < n ==> !Decide(layout, facts, drift, i).Blocks()
  {
    if n > 0 {
      CountsAddUp(layout, facts, drift, n - 1);
    }
  }

  /** The first `n` rows by what the facts say of them. */
  function Absent(facts: Facts, n: nat): set<nat>
    requires n <= |facts.found|
  {
    set i: nat | i < n && !facts.found[i]
  }

  function Untracked(facts: Facts, n: nat): set<nat>
    requires n <= |facts.found| == |facts.priors|
  {
    set i: nat | i < n && facts.found[i] && !Tracked(facts, i)
  }

  function EditedRows(layout: Layout, facts: Facts, drift: set<string>, n: nat): set<nat>
    requires n <= |layout.objects| && Fits(layout, facts)
  {
    set i: nat | i < n && Edited(layout, facts, drift, i)
  }

  function HopelessRows(layout: Layout, facts: Facts, drift: set<string>, n: nat): set<nat>
    requires n <= |layout.objects| && Fits(layout, facts)
  {
    set i: nat | i < n && Hopeless(layout, facts, drift, i)
  }

  /** The sizes of the four sets, as counters; the rest of the rows are skipped. */
  function Sizes(layout: Layout, facts: Facts, drift: set<string>, n: nat): (nat, nat, nat, nat)
    requires n <= |layout.objects| && Fits(layout, facts)
  {
    (|Absent(facts, n)|, |Untracked(facts, n)|, |EditedRows(layout, facts, drift, n)|, |HopelessRows(layout, facts, drift, n)|)
  }

  lemma {:induction false} SizesOne(layout: Layout, facts: Facts, drift: set<string>, m: nat)
    requires m < |layout.objects| && Fits(layout, facts)
    ensures var (create, adopt, changed, blocked) := Sizes(layout, facts, drift, m);
            Sizes(layout, facts, drift, m + 1) ==
              (create + (if facts.found[m] then 0 else 1),
               adopt + (if facts.found[m] && !Tracked(facts, m) then 1 else 0),
               changed + (if Edited(layout, facts, drift, m) then 1 else 0),
               blocked + (if Hopeless(layout, facts, drift, m) then 1 else 0))
  {
    var n := m + 1;
    OneMoreRow(Absent(facts, m), Absent(facts, n), m, !facts.found[m]);
    OneMoreRow(Untracked(facts, m), Untracked(facts, n), m, facts.found[m] && !Tracked(facts, m));
    OneMoreRow(EditedRows(layout, facts, drift, m), EditedRows(layout, facts, drift, n), m, Edited(layout, facts, drift, m));
    OneMoreRow(HopelessRows(layout, facts, drift, m), HopelessRows(layout, facts, drift, n), m, Hopeless(layout, facts, drift, m));
  }

  lemma {:induction false} OneMoreRow(before: set<nat>, after: set<nat>, m: nat, more: bool)
    requires m !in before && forall i: nat :: i in after <==> i in before || (more && i == m)
    ensures |after| == |before| + if more then 1 else 0
  {
    assert after == if more then before + {m} else before;
  }

  /** The summary counts rows by what the facts say of them. */
  lemma {:induction false} CountersMean(layout: Layout, facts: Facts, drift: set<string>, n: nat)
    requires n <= |layout.objects| && Fits(layout, facts)
    ensures var c := Count(layout, facts, drift, n);
            (c.create, c.adopt, c.changed, c.blocked) == Sizes(layout, facts, drift, n)
  {
    if n > 0 {
      CountersMean(layout, facts, drift, n - 1);
      TallyMeans(layout, facts, drift, n - 1, Count(layout, facts, drift, n - 1));
      SizesOne(layout, facts, drift, n - 1);
    }
  }

  /** Every hopeless row is reported, and nothing else is. */
  lemma {:induction false} BlockersName(layout: Layout, facts: Facts, drift: set<string>, n: nat, b: Blocker)
    requires n <= |layout.objects| && Fits(layout, facts)
    ensures b in Blockers(layout, facts, drift, n) <==>
              exists i :: i in HopelessRows(layout, facts, drift, n) && b in Reported(layout, facts, drift, i)
  {
    if n > 0 {
      BlockersName(layout, facts, drift, n - 1, b);
      TallyMeans(layout, facts, drift, n - 1, Counters(0, 0, 0, 0, 0));
      assert forall i :: i in HopelessRows(layout, facts, drift, n - 1) ==> i in HopelessRows(layout, facts, drift, n);
      if b in Reported(layout, facts, drift, n - 1) {
        assert n - 1 in HopelessRows(layout, facts, drift, n);
      }
    }
  }

  /** Every listed table has at least one transition path. */
  predicate ProperPaths(layout: Layout) {
    forall row :: row in layout.paths ==> layout.paths[row] != []
  }

  /** Every schema of the layout is planned, and to be created exactly if the database does not list its normalized name. */
  lemma {:induction false} SchemasMean(layout: Layout, facts: Facts, catalog: Catalog, drift: set<string>, i: nat)
    requires Fits(layout, facts) && i < |layout.schemas|
    ensures var planned := FreshPlan(layout, facts, catalog, drift).schemas;
            && |planned| == |layout.schemas| && planned[i].name == layout.schemas[i].name
            && (planned[i].action == CreateSchema <==> layout.schemas[i].normalized !in catalog.schemas)
  {
  }

  /** The side tables: the whole path list of exactly the tables to reprocess, and provenance, where there is any, of exactly the rows that are not skipped. */
  lemma {:induction false} SideTablesMean(layout: Layout, facts: Facts, catalog: Catalog, drift: set<string>, i: nat)
    requires Fits(layout, facts) && i < |layout.objects|
    ensures var p := FreshPlan(layout, facts, catalog, drift); var script := layout.objects[i].script;
            && (i in p.transitions <==> p.rows[i].action == ReprocessChanged && i + 1 in layout.paths)
            && (i in p.transitions ==> p.transitions[i] == layout.paths[i + 1])
            && (i in p.git <==> p.rows[i].action != SkipUnchanged && script in layout.git && layout.git[script] != Git("", "", ""))
            && (i in p.git ==> p.git[i] == layout.git[script])
  {
  }

  lemma {:induction false} TableUnready(layout: Layout, catalog: Catalog, checksums: Checksums, i: nat, table: string)
    requires i < |layout.objects| && layout.objects[i].key in catalog.objects && catalog.objects[layout.objects[i].key].parent == Some(table)
    ensures var key := layout.objects[i].schema + "/tables/" + table;
            ParentUnready(FactsOf(layout, catalog, checksums), i + 1) <==>
              || (forall o :: o in layout.objects ==> o.key != key)
              || key !in catalog.objects || key !in checksums.digests || checksums.digests[key] == ZERO_DIGEST
  {
    var facts, key := FactsOf(layout, catalog, checksums), layout.objects[i].schema + "/tables/" + table;
    var row := RowOf(layout.objects, key);
    assert ParentOf(layout, catalog, i + 1) == Some(row);
    assert i + 1 in facts.parents && facts.parents[i + 1] == row;
    if row > 0 {
      assert layout.objects[row - 1] in layout.objects;
      assert facts.present[row - 1] <==> key in catalog.objects;
      assert facts.priors[row - 1] == if key in checksums.digests then Some(checksums.digests[key]) else None;
    }
  }

  /**
   A changed trigger, in the database's own terms: it is stopped exactly if the table
   it sits on is not managed, does not exist or has no baseline.
   */
  lemma {:induction false} TriggerStopped(layout: Layout, catalog: Catalog, checksums: Checksums, i: nat, table: string)
    requires i < |layout.objects| && DistinctObjects(layout.objects) && layout.objects[i].kind.Triggers?
    requires layout.objects[i].key in catalog.objects && catalog.objects[layout.objects[i].key].parent == Some(table)
    requires layout.objects[i].key !in checksums.drift && Edited(layout, FactsOf(layout, catalog, checksums), checksums.drift, i)
    ensures var key := layout.objects[i].schema + "/tables/" + table;
            Hopeless(layout, FactsOf(layout, catalog, checksums), checksums.drift, i) <==>
              || (forall o :: o in layout.objects ==> o.key != key)
              || key !in catalog.objects || key !in checksums.digests || checksums.digests[key] == ZERO_DIGEST
  {
    var facts := FactsOf(layout, catalog, checksums);
    assert Hopeless(layout, facts, checksums.drift, i) <==> ParentUnready(facts, i + 1);
    TableUnready(layout, catalog, checksums, i, table);
  }

  /** What a row of an unblocked plan may ask of the apply phase. */
  predicate Appliable(layout: Layout, transitions: map<nat, seq<string>>, i: nat, action: Action)
    requires i < |layout.objects|
  {
    && !action.Fail? && !action.ReprocessChangedBlocked?
    && (action.ReprocessChanged? ==> layout.objects[i].kind.Tables? && i in transitions && transitions[i] != [])
  }

  lemma {:induction false} UnblockedRow(layout: Layout, facts: Facts, drift: set<string>, i: nat)
    requires Fits(layout, facts) && ProperPaths(layout)
    requires i < |layout.objects| && !Decide(layout, facts, drift, i).Blocks()
    ensures Appliable(layout, PathTable(layout, FreshRows(layout, facts, drift)), i, RowAt(layout, facts, drift, i).action)
  {
  }

  /**
   Planner coherence. The four action counters add up to the number of objects;
   the plan is blocked exactly if a blocker is listed; and in an unblocked plan a
   changed object to reprocess is a table with at least one transition.
   */
  lemma {:induction false} PlanCoherent(layout: Layout, facts: Facts, catalog: Catalog, drift: set<string>)
    requires Fits(layout, facts) && ProperPaths(layout)
    ensures var p := FreshPlan(layout, facts, catalog, drift);
            && p.summary.objects == |p.rows| == |layout.objects|
            && var c := p.summary.counters;
               && c.create + c.adopt + c.skip + c.changed == p.summary.objects
               && (p.blocked <==> c.blocked > 0) && c.blocked == |p.blockers|
    ensures var p := FreshPlan(layout, facts, catalog, drift);
            !p.blocked ==> forall i :: 0 <= i < |p.rows| ==> Appliable(layout, p.transitions, i, p.rows[i].action)
  {
    CountsAddUp(layout, facts, drift, |layout.objects|);
    var p := FreshPlan(layout, facts, catalog, drift);
    if !p.blocked {
      forall i | 0 <= i < |p.rows|
        ensures Appliable(layout, p.transitions, i, p.rows[i].action)
      {
        UnblockedRow(layout, facts, drift, i);
      }
    }
  }
}
