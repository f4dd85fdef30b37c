/** One plan out of the plans of several databases: concatenated rows, shifted side tables, added counters. */
module Merge {
  import opened Prelude
  import opened Units
  import opened Planner

  const USIZE_MAX: nat := 0xFFFF_FFFF_FFFF_FFFF

  function SaturatingAdd(a: nat, b: nat): nat {
    if a + b <= USIZE_MAX then a + b else USIZE_MAX
  }

  function Get<V>(m: map<nat, V>, k: nat): Option<V> {
    if k in m then Some(m[k]) else None
  }

  /** What a side table shows at `k` once `src` is inserted behind `offset`. */
  function Shown<V>(dst: map<nat, V>, src: map<nat, V>, offset: nat, k: nat): Option<V> {
    if k >= offset && k - offset in src then Some(src[k - offset]) else Get(dst, k)
  }

  ghost predicate Joined<V>(dst: map<nat, V>, src: map<nat, V>, offset: nat, merged: map<nat, V>) {
    forall k: nat :: Get(merged, k) == Shown(dst, src, offset, k)
  }

  function AddCounters(a: Counters, b: Counters): Counters {
    Counters(SaturatingAdd(a.create, b.create), SaturatingAdd(a.adopt, b.adopt), SaturatingAdd(a.skip, b.skip),
             SaturatingAdd(a.changed, b.changed), SaturatingAdd(a.blocked, b.blocked))
  }

  function AddSummaries(a: Summary, b: Summary): Summary {
    Summary(SaturatingAdd(a.schemas, b.schemas), SaturatingAdd(a.objects, b.objects), AddCounters(a.counters, b.counters))
  }

  /** Inserts every entry of `src`, shifted; the order does not matter. */
  method DrainInto<V>(dst: map<nat, V>, src: map<nat, V>, offset: nat) returns (merged: map<nat, V>)
    ensures Joined(dst, src, offset, merged)
  {
    merged := dst;
    var rest := src.Keys;
    while rest != {}
      invariant rest <= src.Keys
      invariant forall k: nat :: Get(merged, k) == if k >= offset && k - offset in rest then Get(dst, k) else Shown(dst, src, offset, k)
      decreases |rest|
    {
      var i :| i in rest;
      rest := rest - {i};
      merged := merged[offset + i := src[i]];
    }
  }

  /** `merged` is `dst` with `src` appended. */
  ghost predicate Appended(dst: PlanView, src: PlanView, merged: PlanView) {
    && merged.rows == dst.rows + src.rows && merged.schemas == dst.schemas + src.schemas
    && Joined(dst.git, src.git, |dst.rows|, merged.git) && Joined(dst.transitions, src.transitions, |dst.rows|, merged.transitions)
    && merged.blocked == (dst.blocked || src.blocked) && merged.blockers == dst.blockers + src.blockers
    && merged.summary == AddSummaries(dst.summary, src.summary)
  }

  /** The plan of one database with its materialized objects, if they were asked for. */
  datatype Report = Report(plan: PlanView, objects: seq<PlannedObject>)

  class MergedPlan {
    const plan: MigrationPlan
    var objects: seq<PlannedObject>

    constructor (first: Report)
      ensures fresh(plan) && plan.View() == first.plan && objects == first.objects
    {
      var p := new MigrationPlan();
      p.rows, p.git, p.transitions := first.plan.rows, first.plan.git, first.plan.transitions;
      p.schemas, p.blocked, p.blockers, p.summary := first.plan.schemas, first.plan.blocked, first.plan.blockers, first.plan.summary;
      plan, objects := p, first.objects;
    }
  }

  method MergePlanInto(dst: MergedPlan, src: Report)
    modifies dst, dst.plan
    ensures Appended(old(dst.plan.View()), src.plan, dst.plan.View()) && dst.objects == old(dst.objects) + src.objects
  {
    var plan, more := dst.plan, src.plan;
    var offset := |plan.rows|;
    plan.blocked := plan.blocked || more.blocked;
    plan.blockers := plan.blockers + more.blockers;
    plan.schemas := plan.schemas + more.schemas;
    plan.rows := plan.rows + more.rows;
    dst.objects := dst.objects + src.objects;
    var git := DrainInto(plan.git, more.git, offset);
    var transitions := DrainInto(plan.transitions, more.transitions, offset);
    plan.git, plan.transitions := git, transitions;
    plan.summary := AddSummaries(plan.summary, more.summary);
  }

  /** Side-table entries belong to rows of the plan. */
  ghost predicate Attached(p: PlanView) {
    (forall i :: i in p.git ==> i < |p.rows|) && (forall i :: i in p.transitions ==> i < |p.rows|)
  }

  /** Where the rows of plan `j` start. */
  function Offset(plans: seq<PlanView>, j: nat): nat
    requires j <= |plans|
  {
    if j == 0 then 0 else Offset(plans, j - 1) + |plans[j - 1].rows|
  }

  function SumOf(plans: seq<PlanView>): Summary {
    if plans == [] then Summary(0, 0, Counters(0, 0, 0, 0, 0))
    else
      var s, t := SumOf(plans[..|plans| - 1]), plans[|plans| - 1].summary;
      Summary(s.schemas + t.schemas, s.objects + t.objects,
              Counters(s.counters.create + t.counters.create, s.counters.adopt + t.counters.adopt, s.counters.skip + t.counters.skip,
                       s.counters.changed + t.counters.changed, s.counters.blocked + t.counters.blocked))
  }

  predicate WithinUsize(s: Summary) {
    && s.schemas <= USIZE_MAX && s.objects <= USIZE_MAX && s.counters.create <= USIZE_MAX && s.counters.adopt <= USIZE_MAX
    && s.counters.skip <= USIZE_MAX && s.counters.changed <= USIZE_MAX && s.counters.blocked <= USIZE_MAX
  }

  function AllBlockers(plans: seq<PlanView>): seq<Blocker> {
    if plans == [] then [] else AllBlockers(plans[..|plans| - 1]) + plans[|plans| - 1].blockers
  }

  function AllSchemas(plans: seq<PlanView>): seq<PlannedSchema> {
    if plans == [] then [] else AllSchemas(plans[..|plans| - 1]) + plans[|plans| - 1].schemas
  }

  predicate SameEntry<V(==)>(whole: map<nat, V>, part: map<nat, V>, offset: nat, i: nat) {
    Get(whole, offset + i) == Get(part, i)
  }

  /** The rows of `p` stand in `whole` from `offset` on, each with exactly its own side-table entries. */
  ghost predicate Keeps(whole: PlanView, p: PlanView, offset: nat) {
    && offset + |p.rows| <= |whole.rows| && whole.rows[offset..offset + |p.rows|] == p.rows
    && (forall i :: 0 <= i < |p.rows| ==> SameEntry(whole.git, p.git, offset, i))
    && (forall i :: 0 <= i < |p.rows| ==> SameEntry(whole.transitions, p.transitions, offset, i))
  }

  /** Everything the plan of several databases owes to their plans. */
  ghost predicate Conserves(plans: seq<PlanView>, whole: PlanView) {
    && KeepsAll(plans, whole) && Attached(whole)
    && whole.schemas == AllSchemas(plans) && whole.blockers == AllBlockers(plans)
    && (whole.blocked <==> exists p :: p in plans && p.blocked)
    && (WithinUsize(SumOf(plans)) ==> whole.summary == SumOf(plans))
  }

  function Plans(reports: seq<Report>): (plans: seq<PlanView>)
    ensures |plans| == |reports| && forall j :: 0 <= j < |plans| ==> plans[j] == reports[j].plan
  {
    seq(|reports|, j requires 0 <= j < |reports| => reports[j].plan)
  }

  function AllObjects(reports: seq<Report>): seq<PlannedObject> {
    if reports == [] then [] else AllObjects(reports[..|reports| - 1]) + reports[|reports| - 1].objects
  }

  /** The loop over the databases that produced a plan. */
  method MergeAll(reports: seq<Report>) returns (merged: Option<MergedPlan>)
    requires forall r :: r in reports ==> Attached(r.plan)
    ensures merged.None? <==> reports == []
    ensures merged.Some? ==> Conserves(Plans(reports), merged.value.plan.View()) && merged.value.objects == AllObjects(reports)
  {
    merged := None;
    if reports == [] {
      return;
    }
    var dst := new MergedPlan(reports[0]);
    ConservesOne(reports[0].plan);
    assert Plans(reports[..1]) == [reports[0].plan];
    assert reports[..1][..0] == [];
    for i := 1 to |reports|
      invariant fresh(dst) && fresh(dst.plan) && Conserves(Plans(reports[..i]), dst.plan.View()) && dst.objects == AllObjects(reports[..i])
    {
      ghost var before := dst.plan.View();
      MergePlanInto(dst, reports[i]);
      PlansOneMore(reports, i);
      ConservesOneMore(Plans(reports[..i]), before, reports[i].plan, dst.plan.View());
    }
    assert reports[..|reports|] == reports;
    merged := Some(dst);
  }

  lemma {:induction false} PlansOneMore(reports: seq<Report>, i: nat)
    requires i < |reports|
    ensures Plans(reports[..i + 1]) == Plans(reports[..i]) + [reports[i].plan]
    ensures AllObjects(reports[..i + 1]) == AllObjects(reports[..i]) + reports[i].objects
  {
    assert reports[..i + 1][..i] == reports[..i];
  }

  /** When every plan lists one object for each row, object and row stay together: both stand at the plan's offset. */
  lemma {:induction false} ObjectsStayWithRows(reports: seq<Report>, j: nat, i: nat)
    requires forall r :: r in reports ==> |r.objects| == |r.plan.rows|
    requires j < |reports| && i < |reports[j].plan.rows|
    ensures |AllObjects(reports)| == Offset(Plans(reports), |reports|)
    ensures Offset(Plans(reports), j) + i < |AllObjects(reports)| && AllObjects(reports)[Offset(Plans(reports), j) + i] == reports[j].objects[i]
    decreases |reports|
  {
    var n := |reports| - 1;
    var front := reports[..n];
    assert reports == front + [reports[n]];
    ObjectsAsManyAsRows(front);
    ObjectsAsManyAsRows(reports);
    assert Plans(reports) == Plans(front) + [reports[n].plan] && AllObjects(reports) == AllObjects(front) + reports[n].objects;
    OffsetPrefix(Plans(front), [reports[n].plan], j);
    if j < n {
      ObjectsStayWithRows(front, j, i);
    } else {
      assert Offset(Plans(reports), j) == |AllObjects(front)|;
    }
  }

  lemma {:induction false} ObjectsAsManyAsRows(reports: seq<Report>)
    requires forall r :: r in reports ==> |r.objects| == |r.plan.rows|
    ensures |AllObjects(reports)| == Offset(Plans(reports), |reports|)
  {
    if reports != [] {
      var n := |reports| - 1;
      ObjectsAsManyAsRows(reports[..n]);
      assert Plans(reports) == Plans(reports[..n]) + [reports[n].plan];
      OffsetPrefix(Plans(reports[..n]), [reports[n].plan], n);
    }
  }

  lemma {:induction false} ConservesOne(p: PlanView)
    requires Attached(p)
    ensures Conserves([p], p)
  {
  }

  lemma {:induction false} OffsetPrefix(plans: seq<PlanView>, more: seq<PlanView>, j: nat)
    requires j <= |plans|
    ensures Offset(plans + more, j) == Offset(plans, j)
  {
    if j > 0 {
      OffsetPrefix(plans, more, j - 1);
    }
  }

  lemma {:induction false} KeepsEarlier(dst: PlanView, src: PlanView, merged: PlanView, p: PlanView, offset: nat)
    requires Appended(dst, src, merged) && Keeps(dst, p, offset)
    ensures Keeps(merged, p, offset)
  {
    assert merged.rows[offset..offset + |p.rows|] == dst.rows[offset..offset + |p.rows|];
    forall i | 0 <= i < |p.rows|
      ensures SameEntry(merged.git, p.git, offset, i) && SameEntry(merged.transitions, p.transitions, offset, i)
    {
      assert SameEntry(dst.git, p.git, offset, i) && SameEntry(dst.transitions, p.transitions, offset, i);
    }
  }

  lemma {:induction false} KeepsLast(dst: PlanView, src: PlanView, merged: PlanView)
    requires Appended(dst, src, merged) && Attached(dst)
    ensures Keeps(merged, src, |dst.rows|)
  {
  }

  lemma {:induction false} JoinedInRange<V>(dst: map<nat, V>, src: map<nat, V>, offset: nat, merged: map<nat, V>, n: nat)
    requires Joined(dst, src, offset, merged) && (forall i :: i in dst ==> i < offset) && (forall i :: i in src ==> i < n)
    ensures forall i :: i in merged ==> i < offset + n
  {
    forall i | i in merged
      ensures i < offset + n
    {
      assert Get(merged, i) == Shown(dst, src, offset, i);
    }
  }

  /** Every plan's rows stand at the plan's offset. */
  ghost predicate KeepsAll(plans: seq<PlanView>, whole: PlanView) {
    |whole.rows| == Offset(plans, |plans|) && forall j :: 0 <= j < |plans| ==> Keeps(whole, plans[j], Offset(plans, j))
  }

  lemma {:induction false} KeepsAt(plans: seq<PlanView>, dst: PlanView, src: PlanView, merged: PlanView, j: nat)
    requires KeepsAll(plans, dst) && Attached(dst) && Appended(dst, src, merged) && j <= |plans|
    ensures Keeps(merged, (plans + [src])[j], Offset(plans + [src], j))
  {
    OffsetPrefix(plans, [src], j);
    if j < |plans| {
      KeepsEarlier(dst, src, merged, plans[j], Offset(plans, j));
    } else {
      KeepsLast(dst, src, merged);
    }
  }

  lemma {:induction false} AttachedOneMore(dst: PlanView, src: PlanView, merged: PlanView)
    requires Attached(dst) && Attached(src) && Appended(dst, src, merged)
    ensures Attached(merged)
  {
    JoinedInRange(dst.git, src.git, |dst.rows|, merged.git, |src.rows|);
    JoinedInRange(dst.transitions, src.transitions, |dst.rows|, merged.transitions, |src.rows|);
  }

  lemma {:induction false} RowsOneMore(plans: seq<PlanView>, dst: PlanView, src: PlanView, merged: PlanView)
    requires KeepsAll(plans, dst) && Attached(dst) && Appended(dst, src, merged)
    ensures KeepsAll(plans + [src], merged)
  {
    OffsetPrefix(plans, [src], |plans|);
    forall j | 0 <= j < |plans + [src]|
      ensures Keeps(merged, (plans + [src])[j], Offset(plans + [src], j))
    {
      KeepsAt(plans, dst, src, merged, j);
    }
  }

  lemma {:induction false} SumsOneMore(plans: seq<PlanView>, dst: PlanView, src: PlanView, merged: PlanView)
    requires Appended(dst, src, merged) && (WithinUsize(SumOf(plans)) ==> dst.summary == SumOf(plans))
    ensures WithinUsize(SumOf(plans + [src])) ==> merged.summary == SumOf(plans + [src])
    ensures AllSchemas(plans + [src]) == AllSchemas(plans) + src.schemas && AllBlockers(plans + [src]) == AllBlockers(plans) + src.blockers
  {
  }

  lemma {:induction false} ConservesOneMore(plans: seq<PlanView>, dst: PlanView, src: PlanView, merged: PlanView)
    requires Conserves(plans, dst) && Attached(src) && Appended(dst, src, merged)
    ensures Conserves(plans + [src], merged)
  {
    RowsOneMore(plans, dst, src, merged);
    AttachedOneMore(dst, src, merged);
    SumsOneMore(plans, dst, src, merged);
    if dst.blocked {
      var p :| p in plans && p.blocked;
      assert p in plans + [src];
    }
    assert src in plans + [src];
  }
}
