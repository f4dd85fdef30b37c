/**
 Dropping the transitions the history already lists as applied, refusing when one
 of them was edited since, and turning plan rows into planned objects.
 */
module Filter {
  import opened Prelude
  import opened Domain
  import opened Server
  import opened Units
  import opened Sorting
  import Planner

  /** The newest applied-migration row of `path`. */
  function AppliedRow(history: seq<Row>, path: string): (row: Option<Row>)
    ensures row.Some? <==> exists r :: r in history && Applies(r, path)
    ensures row.Some? ==> row.value in history && Applies(row.value, path)
  {
    if history == [] then None
    else if Applies(history[|history| - 1], path) then Some(history[|history| - 1])
    else AppliedRow(history[..|history| - 1], path)
  }

  predicate Applies(row: Row, path: string) {
    row.kind.MigrationRecord? && row.event.Applied? && row.key == path
  }

  /** All applied transitions with their recorded checksums. */
  function AppliedMap(history: seq<Row>): map<string, StoredChecksum> {
    map path | path in (set r | r in history :: r.key) && AppliedRow(history, path).Some? :: AppliedRow(history, path).value.checksum
  }

  lemma {:induction false} AppliedMapKeys(history: seq<Row>)
    ensures forall path :: path in AppliedMap(history) <==> AppliedRow(history, path).Some?
  {
  }

  /** Applied before, with a checksum that is not blank and not the file's. */
  predicate Tampered(path: string, applied: map<string, StoredChecksum>, current: map<string, nat>) {
    path in applied && path in current && applied[path] != Blank && applied[path] != Hex(current[path])
  }

  function Unapplied(paths: seq<string>, applied: map<string, StoredChecksum>): seq<string> {
    if paths == [] then []
    else
      var p := paths[|paths| - 1];
      if p in applied then Unapplied(paths[..|paths| - 1], applied) else Unapplied(paths[..|paths| - 1], applied) + [p]
  }

  function TamperedIn(paths: seq<string>, applied: map<string, StoredChecksum>, current: map<string, nat>): seq<string> {
    if paths == [] then []
    else
      var p := paths[|paths| - 1];
      var earlier := TamperedIn(paths[..|paths| - 1], applied, current);
      if Tampered(p, applied, current) then earlier + [p] else earlier
  }

  lemma {:induction false} UnappliedMembers(paths: seq<string>, applied: map<string, StoredChecksum>)
    ensures forall p :: p in Unapplied(paths, applied) <==> p in paths && p !in applied
  {
    if paths != [] {
      UnappliedMembers(paths[..|paths| - 1], applied);
      assert paths == paths[..|paths| - 1] + [paths[|paths| - 1]];
    }
  }

  /** When the applied paths are the first `k`, filtering resumes at path `k`. */
  lemma {:induction false} ResumesAfterPrefix(paths: seq<string>, applied: map<string, StoredChecksum>, k: nat)
    requires k <= |paths|
    requires forall i :: 0 <= i < |paths| ==> (paths[i] in applied <==> i < k)
    ensures Unapplied(paths, applied) == paths[k..]
  {
    if paths != [] {
      var n := |paths| - 1;
      if k <= n {
        ResumesAfterPrefix(paths[..n], applied, k);
        assert paths[..n][k..] + [paths[n]] == paths[k..];
      } else {
        ResumesAfterPrefix(paths[..n], applied, n);
      }
    }
  }

  method Retain(paths: seq<string>, applied: map<string, StoredChecksum>, current: map<string, nat>, found: seq<string>)
    returns (kept: seq<string>, tampered: seq<string>)
    ensures kept == Unapplied(paths, applied)
    ensures tampered == found + TamperedIn(paths, applied, current)
  {
    kept, tampered := [], found;
    var i := 0;
    while i < |paths|
      invariant 0 <= i <= |paths|
      invariant kept == Unapplied(paths[..i], applied)
      invariant tampered == found + TamperedIn(paths[..i], applied, current)
    {
      var path := paths[i];
      assert paths[..i + 1][..i] == paths[..i];
      if path !in applied {
        kept := kept + [path];
      } else if path in current && applied[path] != Blank && applied[path] != Hex(current[path]) {
        tampered := tampered + [path];
      }
      i := i + 1;
    }
    assert paths[..i] == paths;
  }

  predicate Reprocesses(rows: seq<Planner.Row>, i: nat) {
    i < |rows| && rows[i].action.ReprocessChanged?
  }

  function FilteredAt(rows: seq<Planner.Row>, paths: seq<string>, applied: map<string, StoredChecksum>, n: nat, i: nat): seq<string> {
    if i < n && Reprocesses(rows, i) then Unapplied(paths, applied) else paths
  }

  /** `after` holds the path lists of `before` once the first `n` rows are filtered. */
  ghost predicate Filtered(rows: seq<Planner.Row>, before: map<nat, seq<string>>, applied: map<string, StoredChecksum>, n: nat, after: map<nat, seq<string>>) {
    after.Keys == before.Keys && forall i :: i in before ==> after[i] == FilteredAt(rows, before[i], applied, n, i)
  }

  function AllTampered(rows: seq<Planner.Row>, transitions: map<nat, seq<string>>,
                       applied: map<string, StoredChecksum>, current: map<string, nat>, n: nat): seq<string>
  {
    if n == 0 then []
    else if Reprocesses(rows, n - 1) && n - 1 in transitions
    then AllTampered(rows, transitions, applied, current, n - 1) + TamperedIn(transitions[n - 1], applied, current)
    else AllTampered(rows, transitions, applied, current, n - 1)
  }

  /** Row `k` is the newest one that lists `path` as applied. */
  ghost predicate NewestApplied(history: seq<Row>, path: string, k: int) {
    0 <= k < |history| && Applies(history[k], path) && forall j :: k < j < |history| ==> !Applies(history[j], path)
  }

  lemma {:induction false} AppliedRowIsNewest(history: seq<Row>, path: string)
    ensures forall k :: NewestApplied(history, path, k) ==> AppliedRow(history, path) == Some(history[k])
    ensures AppliedRow(history, path).Some? ==> exists k :: NewestApplied(history, path, k)
  {
    if history != [] {
      var n := |history| - 1;
      AppliedRowIsNewest(history[..n], path);
      if Applies(history[n], path) {
        assert NewestApplied(history, path, n);
      } else {
        forall k | 0 <= k < n
          ensures NewestApplied(history, path, k) <==> NewestApplied(history[..n], path, k)
        {
        }
      }
    }
  }

  /** The file was applied before, and is now another one than the newest applied row says; a blank checksum says nothing. */
  ghost predicate EditedSince(history: seq<Row>, path: string, current: map<string, nat>) {
    && path in current
    && exists k :: NewestApplied(history, path, k) && history[k].checksum != Blank && history[k].checksum != Hex(current[path])
  }

  lemma {:induction false} TamperedMeans(history: seq<Row>, path: string, current: map<string, nat>)
    ensures Tampered(path, AppliedMap(history), current) <==> EditedSince(history, path, current)
  {
    AppliedRowIsNewest(history, path);
    AppliedMapKeys(history);
  }

  lemma {:induction false} TamperedInMembers(paths: seq<string>, applied: map<string, StoredChecksum>, current: map<string, nat>, path: string)
    ensures path in TamperedIn(paths, applied, current) <==> path in paths && Tampered(path, applied, current)
  {
    if paths != [] {
      TamperedInMembers(paths[..|paths| - 1], applied, current, path);
      assert paths == paths[..|paths| - 1] + [paths[|paths| - 1]];
    }
  }

  /** The path is pending for a changed table among the first `n` rows. */
  ghost predicate PendingPath(rows: seq<Planner.Row>, transitions: map<nat, seq<string>>, n: nat, path: string) {
    exists i :: 0 <= i < n && Reprocesses(rows, i) && i in transitions && path in transitions[i]
  }

  lemma {:induction false} AllTamperedMembers(rows: seq<Planner.Row>, transitions: map<nat, seq<string>>,
                                              applied: map<string, StoredChecksum>, current: map<string, nat>, n: nat, path: string)
    ensures path in AllTampered(rows, transitions, applied, current, n) <==>
              PendingPath(rows, transitions, n, path) && Tampered(path, applied, current)
  {
    if n > 0 {
      AllTamperedMembers(rows, transitions, applied, current, n - 1, path);
      if Reprocesses(rows, n - 1) && n - 1 in transitions {
        TamperedInMembers(transitions[n - 1], applied, current, path);
      }
    }
  }

  /** Who is accused: exactly the pending paths of changed tables whose files were edited since they were applied. */
  ghost predicate Accused(rows: seq<Planner.Row>, transitions: map<nat, seq<string>>, history: seq<Row>, current: map<string, nat>, path: string) {
    PendingPath(rows, transitions, |rows|, path) && EditedSince(history, path, current)
  }

  lemma {:induction false} AccusedMembers(rows: seq<Planner.Row>, transitions: map<nat, seq<string>>, history: seq<Row>, current: map<string, nat>)
    ensures var tampered := AllTampered(rows, transitions, AppliedMap(history), current, |rows|);
            && (forall path :: path in tampered <==> Accused(rows, transitions, history, current, path))
            && (forall path :: path in Sort(tampered, StringLe) <==> Accused(rows, transitions, history, current, path))
            && (tampered != [] <==> exists path :: Accused(rows, transitions, history, current, path))
  {
    var tampered := AllTampered(rows, transitions, AppliedMap(history), current, |rows|);
    forall path
      ensures path in tampered <==> Accused(rows, transitions, history, current, path)
    {
      AllTamperedMembers(rows, transitions, AppliedMap(history), current, |rows|, path);
      TamperedMeans(history, path, current);
    }
    SortKeeps(tampered, StringLe);
    if tampered != [] {
      assert tampered[0] in tampered;
    }
  }

  lemma {:induction false} FilteredOne(rows: seq<Planner.Row>, before: map<nat, seq<string>>, applied: map<string, StoredChecksum>, n: nat, after: map<nat, seq<string>>)
    requires Filtered(rows, before, applied, n, after)
    ensures if Reprocesses(rows, n) && n in after
            then n in before && after[n] == before[n] && Filtered(rows, before, applied, n + 1, after[n := Unapplied(before[n], applied)])
            else Filtered(rows, before, applied, n + 1, after)
  {
  }

  lemma {:induction false} NothingPending(rows: seq<Planner.Row>, transitions: map<nat, seq<string>>,
                                          applied: map<string, StoredChecksum>, current: map<string, nat>, n: nat)
    requires forall i :: i in transitions && Reprocesses(rows, i) ==> transitions[i] == []
    ensures Filtered(rows, transitions, applied, n, transitions) && AllTampered(rows, transitions, applied, current, n) == []
  {
    if n > 0 {
      NothingPending(rows, transitions, applied, current, n - 1);
    }
  }

  method FilterRows(plan: Planner.MigrationPlan, applied: map<string, StoredChecksum>, current: map<string, nat>)
    returns (tampered: seq<string>)
    modifies plan`transitions
    ensures Filtered(plan.rows, old(plan.transitions), applied, |plan.rows|, plan.transitions)
    ensures tampered == old(AllTampered(plan.rows, plan.transitions, applied, current, |plan.rows|))
  {
    var rows := plan.rows;
    ghost var before := plan.transitions;
    tampered := [];
    for i := 0 to |rows|
      invariant Filtered(rows, before, applied, i, plan.transitions)
      invariant tampered == AllTampered(rows, before, applied, current, i)
    {
      FilteredOne(rows, before, applied, i, plan.transitions);
      if Reprocesses(rows, i) && i in plan.transitions {
        var kept;
        kept, tampered := Retain(plan.transitions[i], applied, current, tampered);
        plan.transitions := plan.transitions[i := kept];
      }
    }
  }

  /** Some changed table still has transitions to look at. */
  predicate FilterNeeded(rows: seq<Planner.Row>, transitions: map<nat, seq<string>>) {
    exists i :: i in transitions && Reprocesses(rows, i) && transitions[i] != []
  }

  /** Edits the path lists of the plan in place and reports the tampered paths in order. */
  method FilterApplied(plan: Planner.MigrationPlan, applied: map<string, StoredChecksum>, current: map<string, nat>)
    returns (r: Result<(), seq<string>>)
    modifies plan`transitions
    ensures Filtered(plan.rows, old(plan.transitions), applied, |plan.rows|, plan.transitions)
    ensures var tampered := old(AllTampered(plan.rows, plan.transitions, applied, current, |plan.rows|));
            r == if tampered == [] then Ok(()) else Err(Sort(tampered, StringLe))
  {
    if !FilterNeeded(plan.rows, plan.transitions) {
      NothingPending(plan.rows, plan.transitions, applied, current, |plan.rows|);
      return Ok(());
    }
    var tampered := FilterRows(plan, applied, current);
    r := if tampered == [] then Ok(()) else Err(Sort(tampered, StringLe));
  }

  /** Row `i` of the plan as the apply phase reads it. */
  function PlannedAt(layout: Planner.Layout, rows: seq<Planner.Row>, transitions: map<nat, seq<string>>, i: nat): PlannedObject
    requires i < |rows| == |layout.objects|
  {
    var o := layout.objects[i];
    PlannedObject(o.key, o.kind, rows[i].action, rows[i].digest, o.path, if i in transitions then transitions[i] else [])
  }

  function Materialized(layout: Planner.Layout, rows: seq<Planner.Row>, transitions: map<nat, seq<string>>): (os: seq<PlannedObject>)
    requires |rows| == |layout.objects|
    ensures |os| == |rows| && forall i :: 0 <= i < |os| ==> os[i] == PlannedAt(layout, rows, transitions, i)
  {
    seq(|rows|, i requires 0 <= i < |rows| => PlannedAt(layout, rows, transitions, i))
  }
}
