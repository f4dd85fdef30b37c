/**
 Workspaces as dense tables with 1-based ids, and the sub-workspace of one
 database. Rows, scripts and database ids are all renumbered; what the tables say
 about the objects of that database stays the same.
 */
module SubWorkspace {
  import opened Prelude
  import opened Sorting
  import opened DatabaseNames

  datatype Script = Script(path: string, absolute: string, kind: nat, digest: Option<nat>)

  /** One object: `db` indexes the database names, `script` is a 1-based script id. */
  datatype Entry = Entry(key: string, db: nat, script: nat, digest: nat)

  datatype Transition = Transition(ordinal: string, script: nat)

  /** `transitions` and `parents` are keyed by 1-based row ids; a parent of 0 is a parent the layout does not hold. */
  datatype Store = Store(
    databases: seq<string>,
    scripts: seq<Script>,
    entries: seq<Entry>,
    transitions: map<nat, seq<Transition>>,
    parents: map<nat, nat>)

  function DatabaseName(s: Store, db: nat): string {
    if db < |s.databases| then s.databases[db] else ""
  }

  predicate InDatabase(s: Store, row: nat, db: string) {
    0 < row <= |s.entries| && DatabaseName(s, s.entries[row - 1].db) == db
  }

  /** No two scripts share a path, no two objects of one database a key. */
  ghost predicate DistinctPaths(s: Store) {
    forall i, j :: 0 <= i < j < |s.scripts| ==> s.scripts[i].path != s.scripts[j].path
  }

  ghost predicate DistinctObjects(s: Store) {
    forall a, b :: 0 <= a < b < |s.entries| && DatabaseName(s, s.entries[a].db) == DatabaseName(s, s.entries[b].db) ==>
      s.entries[a].key != s.entries[b].key
  }

  ghost predicate InRange(s: Store, ts: seq<Transition>) {
    forall t :: t in ts ==> 0 < t.script <= |s.scripts|
  }

  ghost predicate WellFormed(s: Store) {
    && DistinctPaths(s) && DistinctObjects(s)
    && (forall e :: e in s.entries ==> 0 < e.script <= |s.scripts|)
    && (forall row :: row in s.transitions ==> InRange(s, s.transitions[row]))
  }

  /** What a workspace says about one object, without any id. */
  datatype ObjectView = ObjectView(
    key: string,
    digest: nat,
    script: Script,
    transitions: seq<(string, Script)>,
    parent: ParentView)

  /** The parent recorded for an object: none, one the workspace does not hold, or the object with this key. */
  datatype ParentView = Unrecorded | Missing | Recorded(key: string)

  function TransitionViews(scripts: seq<Script>, ts: seq<Transition>): seq<(string, Script)>
    requires forall t :: t in ts ==> 0 < t.script <= |scripts|
  {
    seq(|ts|, i requires 0 <= i < |ts| => (ts[i].ordinal, scripts[ts[i].script - 1]))
  }

  function TransitionsOf(s: Store, row: nat): seq<Transition> {
    if row in s.transitions then s.transitions[row] else []
  }

  function ParentOf(s: Store, row: nat): ParentView {
    if row !in s.parents then Unrecorded
    else if 0 < s.parents[row] <= |s.entries| then Recorded(s.entries[s.parents[row] - 1].key)
    else Missing
  }

  ghost function ViewOf(s: Store, row: nat): ObjectView
    requires WellFormed(s) && 0 < row <= |s.entries|
  {
    var e := s.entries[row - 1];
    ObjectView(e.key, e.digest, s.scripts[e.script - 1], TransitionViews(s.scripts, TransitionsOf(s, row)), ParentOf(s, row))
  }

  /** The script index finds exactly the scripts that are there. */
  ghost predicate Indexed(scripts: seq<Script>, index: map<string, nat>) {
    && (forall i :: 0 <= i < |scripts| ==> scripts[i].path in index && index[scripts[i].path] == i + 1)
    && (forall p :: p in index ==> 0 < index[p] <= |scripts| && scripts[index[p] - 1].path == p)
  }

  lemma {:induction false} IndexedInPlace(scripts: seq<Script>, index: map<string, nat>, script: Script)
    requires Indexed(scripts, index) && script.path in index
    ensures Indexed(scripts[index[script.path] - 1 := script], index)
  {
  }

  lemma {:induction false} IndexedAtEnd(scripts: seq<Script>, index: map<string, nat>, script: Script)
    requires Indexed(scripts, index) && script.path !in index
    ensures Indexed(scripts + [script], index[script.path := |scripts| + 1])
  {
  }

  /** The key index finds exactly the rows that are there. */
  ghost predicate KeysIndexed(entries: seq<Entry>, index: map<string, nat>) {
    && (forall i :: 0 <= i < |entries| ==> entries[i].key in index && index[entries[i].key] == i + 1)
    && (forall k :: k in index ==> 0 < index[k] <= |entries| && entries[index[k] - 1].key == k)
  }

  class Workspace {
    var databases: seq<string>
    var scripts: seq<Script>
    var scriptIndex: map<string, nat>
    var entries: seq<Entry>
    var keyIndex: map<string, nat>
    var transitions: map<nat, seq<Transition>>
    var parents: map<nat, nat>

    constructor ()
      ensures databases == [""] && scripts == [] && scriptIndex == map[] && entries == [] && transitions == map[] && parents == map[]
    {
      databases, scripts, scriptIndex, entries, keyIndex := [""], [], map[], [], map[];
      transitions, parents := map[], map[];
    }

    function AsStore(): Store
      reads this
    {
      Store(databases, scripts, entries, transitions, parents)
    }

    /** Registers a database name; the empty name is id 0. */
    method InternDatabase(name: string) returns (id: nat)
      requires [""] <= databases
      modifies this`databases
      ensures databases == old(Interned(databases, name)) && id == old(Find(databases, name))
    {
      if name == "" {
        return 0;
      }
      id := Find(databases, name);
      if id == |databases| {
        databases := databases + [name];
      }
    }

    /** Inserts a script, or replaces the one with the same path in its place; returns its 1-based id. */
    method InsertScript(script: Script) returns (id: nat)
      requires Indexed(scripts, scriptIndex)
      modifies this`scripts, this`scriptIndex
      ensures Indexed(scripts, scriptIndex) && 0 < id <= |scripts| && scripts[id - 1] == script
      ensures if script.path in old(scriptIndex)
              then id <= |old(scripts)| && scripts == old(scripts)[id - 1 := script] && scriptIndex == old(scriptIndex) && id == scriptIndex[script.path]
              else scripts == old(scripts) + [script] && scriptIndex == old(scriptIndex)[script.path := id]
    {
      if script.path in scriptIndex {
        IndexedInPlace(scripts, scriptIndex, script);
        id := scriptIndex[script.path];
        scripts := scripts[id - 1 := script];
        return;
      }
      IndexedAtEnd(scripts, scriptIndex, script);
      id := |scripts| + 1;
      scriptIndex := scriptIndex[script.path := id];
      scripts := scripts + [script];
    }

    /** Copies a wanted script of the parent; no script that is there already changes. */
    method CopyScript(ghost parent: Store, ghost db: string, script: Script) returns (id: nat)
      requires WellFormed(parent) && Shelf(parent, db, scripts, scriptIndex) && script in parent.scripts && Wanted(parent, db, script.path)
      modifies this`scripts, this`scriptIndex
      ensures Shelf(parent, db, scripts, scriptIndex) && old(scripts) <= scripts
      ensures 0 < id <= |scripts| && scripts[id - 1] == script
    {
      if script.path in scriptIndex {
        Replaced(parent, db, scripts, scriptIndex, script);
      } else {
        Appended(parent, db, scripts, scriptIndex, script);
      }
      id := InsertScript(script);
    }

    /** Sorts the entries by key and indexes them. */
    method AdoptDenseEntries(pairs: seq<Entry>)
      requires DistinctEntries(pairs)
      modifies this`entries, this`keyIndex
      ensures |entries| == |pairs| && (forall e :: e in entries <==> e in pairs) && KeysIndexed(entries, keyIndex)
    {
      var sorted := Sort(pairs, ByKey);
      SortKeeps(pairs, ByKey);
      SortDistinct(pairs);
      var index: map<string, nat> := map[];
      for i := 0 to |sorted|
        invariant KeysIndexed(sorted[..i], index)
      {
        IndexOneMore(sorted, i, index);
        index := index[sorted[i].key := i + 1];
      }
      assert sorted[..|sorted|] == sorted;
      entries, keyIndex := sorted, index;
    }

    /** Copies the scripts below the database's directory; `ids` maps old ids to new ones. */
    method CopyScripts(parent: Store, db: string) returns (ids: map<nat, nat>)
      requires WellFormed(parent) && scripts == [] && scriptIndex == map[]
      modifies this`scripts, this`scriptIndex
      ensures Shelf(parent, db, scripts, scriptIndex) && CopiedUpTo(parent, db, |parent.scripts|, scripts, ids)
    {
      ids := map[];
      for n := 0 to |parent.scripts|
        invariant Shelf(parent, db, scripts, scriptIndex) && CopiedUpTo(parent, db, n, scripts, ids)
      {
        var script := parent.scripts[n];
        if db + "/" <= script.path {
          ghost var before := scripts;
          var child := CopyScript(parent, db, script);
          CopyOne(parent, db, n, before, scripts, ids, child);
          ids := ids[n + 1 := child];
        }
      }
    }

    /** The script of an object: copied already, or copied now from outside the directory. */
    method ChildScript(parent: Store, db: string, row: nat, ids: map<nat, nat>) returns (id: nat)
      requires WellFormed(parent) && InDatabase(parent, row, db) && Shelf(parent, db, scripts, scriptIndex)
      requires CopiedUpTo(parent, db, |parent.scripts|, scripts, ids)
      modifies this`scripts, this`scriptIndex
      ensures Shelf(parent, db, scripts, scriptIndex) && old(scripts) <= scripts
      ensures SameScript(parent, scripts, parent.entries[row - 1].script, id)
    {
      EntryScript(parent, db, row);
      var o := parent.entries[row - 1];
      if o.script in ids {
        assert SameScript(parent, scripts, o.script, ids[o.script]);
        return ids[o.script];
      }
      id := CopyScript(parent, db, parent.scripts[o.script - 1]);
    }

    /** The entries of the database with their new ids. */
    method CollectEntries(parent: Store, db: string, dbId: nat, ids: map<nat, nat>) returns (pairs: seq<Entry>)
      requires WellFormed(parent) && Shelf(parent, db, scripts, scriptIndex) && CopiedUpTo(parent, db, |parent.scripts|, scripts, ids)
      modifies this`scripts, this`scriptIndex
      ensures Shelf(parent, db, scripts, scriptIndex) && Collected(parent, db, |parent.entries|, scripts, dbId, pairs)
      ensures old(scripts) <= scripts
    {
      pairs := [];
      for i := 0 to |parent.entries|
        invariant Shelf(parent, db, scripts, scriptIndex) && CopiedUpTo(parent, db, |parent.scripts|, scripts, ids)
        invariant Collected(parent, db, i, scripts, dbId, pairs) && old(scripts) <= scripts
      {
        var o := parent.entries[i];
        if DatabaseName(parent, o.db) != db {
          CollectNone(parent, db, i, scripts, dbId, pairs);
          continue;
        }
        ghost var before := scripts;
        var id := ChildScript(parent, db, i + 1, ids);
        StillCopied(parent, db, before, scripts, ids);
        CollectOne(parent, db, i, before, scripts, dbId, pairs, Entry(o.key, dbId, id, o.digest));
        pairs := pairs + [Entry(o.key, dbId, id, o.digest)];
      }
    }

    /** The transitions whose scripts the sub-workspace holds, with their new ids. */
    method MapTransitions(parent: Store, ts: seq<Transition>) returns (mapped: seq<Transition>)
      requires InRange(parent, ts)
      ensures mapped == Mapped(parent, scriptIndex, ts)
    {
      mapped := [];
      for i := 0 to |ts|
        invariant mapped == Mapped(parent, scriptIndex, ts[..i])
      {
        assert ts[..i + 1][..i] == ts[..i];
        var path := parent.scripts[ts[i].script - 1].path;
        if path !in scriptIndex {
          continue;
        }
        mapped := mapped + [Transition(ts[i].ordinal, scriptIndex[path])];
      }
      assert ts[..|ts|] == ts;
    }

    /** One row of the parent: mapped to its row here, or passed over. */
    method RelinkRow(parent: Store, db: string, row: nat, ghost done: set<nat>)
      requires Separate(parent, db, keyIndex) && row in parent.transitions && InRange(parent, parent.transitions[row]) && row !in done
      requires Relinked(parent, db, keyIndex, scriptIndex, done, transitions)
      modifies this`transitions
      ensures Relinked(parent, db, keyIndex, scriptIndex, done + {row}, transitions)
    {
      if !InDatabase(parent, row, db) || parent.entries[row - 1].key !in keyIndex {
        RelinkNone(parent, db, keyIndex, scriptIndex, done, transitions, row);
        return;
      }
      var child := keyIndex[parent.entries[row - 1].key];
      var mapped := MapTransitions(parent, parent.transitions[row]);
      ghost var before := transitions;
      RelinkNew(parent, db, keyIndex, scriptIndex, done, before, row, child);
      if mapped != [] {
        transitions := transitions[child := mapped];
      }
      RelinkOne(parent, db, keyIndex, scriptIndex, done, before, transitions, row, child);
    }

    method RelinkTransitionsFrom(parent: Store, db: string)
      requires Separate(parent, db, keyIndex) && forall row :: row in parent.transitions ==> InRange(parent, parent.transitions[row])
      modifies this`transitions
      ensures Relinked(parent, db, keyIndex, scriptIndex, parent.transitions.Keys, transitions)
    {
      transitions := map[];
      var rest := parent.transitions.Keys;
      ghost var done: set<nat> := {};
      while rest != {}
        invariant done !! rest && done + rest == parent.transitions.Keys
        invariant Relinked(parent, db, keyIndex, scriptIndex, done, transitions)
        decreases |rest|
      {
        var row :| row in rest;
        RelinkRow(parent, db, row, done);
        rest, done := rest - {row}, done + {row};
      }
    }

    /** Parents are found again by key; a parent the sub-workspace does not hold is dropped. */
    method RelinkParentsFrom(parent: Store, db: string)
      requires Separate(parent, db, keyIndex)
      modifies this`parents
      ensures ParentsRelinked(parent, db, keyIndex, parent.parents.Keys, parents)
    {
      parents := map[];
      var rest := parent.parents.Keys;
      ghost var done: set<nat> := {};
      while rest != {}
        invariant done !! rest && done + rest == parent.parents.Keys
        invariant ParentsRelinked(parent, db, keyIndex, done, parents)
        decreases |rest|
      {
        var row :| row in rest;
        ghost var before := parents;
        if InDatabase(parent, row, db) && parent.entries[row - 1].key in keyIndex {
          var child := keyIndex[parent.entries[row - 1].key];
          var up := ParentHere(parent, keyIndex, row);
          ParentsNew(parent, db, keyIndex, done, before, row, child);
          if up.Some? {
            parents := parents[child := up.value];
          }
          ParentsOne(parent, db, keyIndex, done, before, parents, row, child);
        } else {
          ParentsNone(parent, db, keyIndex, done, parents, row);
        }
        rest, done := rest - {row}, done + {row};
      }
    }

    /** Database, scripts and rows, all renumbered. */
    method Populate(parent: Store, db: string) returns (dbId: nat, ids: map<nat, nat>)
      requires WellFormed(parent) && databases == [""] && scripts == [] && scriptIndex == map[]
      modifies this`databases, this`scripts, this`scriptIndex, this`entries, this`keyIndex
      ensures Populated(parent, db, databases, scripts, scriptIndex, entries, keyIndex, dbId, ids)
    {
      dbId := InternDatabase(db);
      FirstName(db);
      ids := CopyScripts(parent, db);
      ghost var copied := scripts;
      var pairs := CollectEntries(parent, db, dbId, ids);
      StillCopied(parent, db, copied, scripts, ids);
      AdoptDenseEntries(pairs);
      Rearranged(parent, db, scripts, dbId, pairs, entries, keyIndex);
    }

    /** Transitions and parents, both found again by key. */
    method Relink(parent: Store, db: string)
      requires WellFormed(parent) && KeysIndexed(entries, keyIndex)
      modifies this`transitions, this`parents
      ensures Separate(parent, db, keyIndex) && Relinked(parent, db, keyIndex, scriptIndex, parent.transitions.Keys, transitions)
      ensures ParentsRelinked(parent, db, keyIndex, parent.parents.Keys, parents)
    {
      SeparateRows(parent, db, entries, keyIndex);
      RelinkTransitionsFrom(parent, db);
      RelinkParentsFrom(parent, db);
    }
  }

  /** The sub-workspace of one database. */
  method ForCatalogDatabase(parent: Store, db: string) returns (out: Workspace)
    requires WellFormed(parent)
    ensures fresh(out) && Preserves(parent, db, out.AsStore())
  {
    out := new Workspace();
    var dbId, ids := out.Populate(parent, db);
    out.Relink(parent, db);
    FinishedIsAssembled(parent, db, out.AsStore(), dbId, out.keyIndex, out.scriptIndex, ids);
    AssembledPreserves(parent, db, out.AsStore(), dbId, out.keyIndex, out.scriptIndex);
  }

  /** Rows and scripts before anything is linked. */
  ghost predicate Populated(parent: Store, db: string, databases: seq<string>, scripts: seq<Script>, index: map<string, nat>,
                            entries: seq<Entry>, keyIndex: map<string, nat>, dbId: nat, ids: map<nat, nat>) {
    && dbId < |databases| && databases[dbId] == db
    && Shelf(parent, db, scripts, index) && CopiedUpTo(parent, db, |parent.scripts|, scripts, ids)
    && Collected(parent, db, |parent.entries|, scripts, dbId, entries) && KeysIndexed(entries, keyIndex)
  }

  predicate ByKey(a: Entry, b: Entry) {
    StringLe(a.key, b.key)
  }

  ghost predicate DistinctEntries(entries: seq<Entry>) {
    forall a, b :: 0 <= a < b < |entries| ==> entries[a].key != entries[b].key
  }

  lemma {:induction false} IndexOneMore(entries: seq<Entry>, i: nat, index: map<string, nat>)
    requires i < |entries| && DistinctEntries(entries) && KeysIndexed(entries[..i], index)
    ensures KeysIndexed(entries[..i + 1], index[entries[i].key := i + 1])
  {
  }

  lemma {:induction false} PlaceDistinct(x: Entry, ys: seq<Entry>)
    requires DistinctEntries(ys) && forall y :: y in ys ==> y.key != x.key
    ensures DistinctEntries(Place(x, ys, ByKey)) && forall y :: y in Place(x, ys, ByKey) ==> y == x || y in ys
  {
    if ys == [] || ByKey(x, ys[0]) {
    } else {
      var rest := Place(x, ys[1..], ByKey);
      PlaceDistinct(x, ys[1..]);
      forall j | 0 <= j < |rest|
        ensures rest[j].key != ys[0].key
      {
        assert rest[j] in rest;
        if rest[j] != x {
          var k :| 0 <= k < |ys[1..]| && ys[1..][k] == rest[j];
          assert ys[k + 1] == rest[j];
        }
      }
    }
  }

  lemma {:induction false} SortDistinct(xs: seq<Entry>)
    requires DistinctEntries(xs)
    ensures DistinctEntries(Sort(xs, ByKey))
  {
    if xs != [] {
      SortDistinct(xs[1..]);
      SortKeeps(xs[1..], ByKey);
      forall y | y in Sort(xs[1..], ByKey)
        ensures y.key != xs[0].key
      {
        var k :| 0 <= k < |xs[1..]| && xs[1..][k] == y;
        assert xs[k + 1] == y;
      }
      PlaceDistinct(xs[0], Sort(xs[1..], ByKey));
    }
  }

  /** A script the sub-workspace holds: below the database's directory, or the script of one of its objects. */
  ghost predicate Wanted(parent: Store, db: string, path: string) {
    || db + "/" <= path
    || exists row :: InDatabase(parent, row, db) && 0 < parent.entries[row - 1].script <= |parent.scripts|
                     && parent.scripts[parent.entries[row - 1].script - 1].path == path
  }

  /** The scripts of the sub-workspace: each one from the parent, wanted, and indexed by its path. */
  ghost predicate Shelf(parent: Store, db: string, scripts: seq<Script>, index: map<string, nat>) {
    && Indexed(scripts, index)
    && forall s :: s in scripts ==> s in parent.scripts && Wanted(parent, db, s.path)
  }

  lemma {:induction false} Replaced(parent: Store, db: string, scripts: seq<Script>, index: map<string, nat>, script: Script)
    requires WellFormed(parent) && Shelf(parent, db, scripts, index) && script in parent.scripts && script.path in index
    ensures scripts[index[script.path] - 1] == script && scripts[index[script.path] - 1 := script] == scripts
  {
  }

  lemma {:induction false} Appended(parent: Store, db: string, scripts: seq<Script>, index: map<string, nat>, script: Script)
    requires Shelf(parent, db, scripts, index) && script in parent.scripts && Wanted(parent, db, script.path) && script.path !in index
    ensures Shelf(parent, db, scripts + [script], index[script.path := |scripts| + 1])
  {
  }

  ghost predicate CopiedUpTo(parent: Store, db: string, n: nat, scripts: seq<Script>, ids: map<nat, nat>)
    requires n <= |parent.scripts|
  {
    && (forall id :: id in ids ==> 0 < id <= n && SameScript(parent, scripts, id, ids[id]))
    && (forall i :: 0 <= i < n && db + "/" <= parent.scripts[i].path ==> i + 1 in ids)
  }

  /** Script `id` of the parent is script `child` of the sub-workspace. */
  ghost predicate SameScript(parent: Store, scripts: seq<Script>, id: nat, child: nat) {
    0 < id <= |parent.scripts| && 0 < child <= |scripts| && scripts[child - 1] == parent.scripts[id - 1]
  }

  lemma {:induction false} StillCopied(parent: Store, db: string, before: seq<Script>, after: seq<Script>, ids: map<nat, nat>)
    requires CopiedUpTo(parent, db, |parent.scripts|, before, ids) && before <= after
    ensures CopiedUpTo(parent, db, |parent.scripts|, after, ids)
  {
  }

  lemma {:induction false} CopyOne(parent: Store, db: string, n: nat, before: seq<Script>, after: seq<Script>, ids: map<nat, nat>, child: nat)
    requires n < |parent.scripts| && CopiedUpTo(parent, db, n, before, ids) && before <= after && SameScript(parent, after, n + 1, child)
    ensures CopiedUpTo(parent, db, n + 1, after, ids[n + 1 := child])
  {
  }

  /** `e` says in the child what `p` says in the parent. */
  ghost predicate Carries(parent: Store, scripts: seq<Script>, e: Entry, p: Entry) {
    e.key == p.key && e.digest == p.digest && SameScript(parent, scripts, p.script, e.script)
  }

  /** Some entry among `pairs` carries entry `i` of the parent. */
  ghost predicate Represented(parent: Store, scripts: seq<Script>, pairs: seq<Entry>, i: nat)
    requires i < |parent.entries|
  {
    exists e :: e in pairs && Carries(parent, scripts, e, parent.entries[i])
  }

  /** `e` carries one of the first `n` entries of the parent that belong to the database. */
  ghost predicate Represents(parent: Store, db: string, n: nat, scripts: seq<Script>, e: Entry)
    requires n <= |parent.entries|
  {
    exists i :: 0 <= i < n && InDatabase(parent, i + 1, db) && Carries(parent, scripts, e, parent.entries[i])
  }

  /** `pairs` are the first `n` entries of the parent that belong to the database. */
  ghost predicate Collected(parent: Store, db: string, n: nat, scripts: seq<Script>, dbId: nat, pairs: seq<Entry>)
    requires n <= |parent.entries|
  {
    && DistinctEntries(pairs)
    && (forall e :: e in pairs ==> e.db == dbId && Represents(parent, db, n, scripts, e))
    && (forall i :: 0 <= i < n && InDatabase(parent, i + 1, db) ==> Represented(parent, scripts, pairs, i))
  }

  lemma {:induction false} EntryScript(parent: Store, db: string, row: nat)
    requires WellFormed(parent) && InDatabase(parent, row, db)
    ensures var id := parent.entries[row - 1].script;
            0 < id <= |parent.scripts| && parent.scripts[id - 1] in parent.scripts && Wanted(parent, db, parent.scripts[id - 1].path)
  {
  }

  lemma {:induction false} CollectNone(parent: Store, db: string, i: nat, scripts: seq<Script>, dbId: nat, pairs: seq<Entry>)
    requires i < |parent.entries| && Collected(parent, db, i, scripts, dbId, pairs) && !InDatabase(parent, i + 1, db)
    ensures Collected(parent, db, i + 1, scripts, dbId, pairs)
  {
  }

  lemma {:induction false} StillRepresents(parent: Store, db: string, n: nat, before: seq<Script>, after: seq<Script>, e: Entry)
    requires n < |parent.entries| && Represents(parent, db, n, before, e) && before <= after
    ensures Represents(parent, db, n + 1, after, e)
  {
  }

  lemma {:induction false} StillRepresented(parent: Store, before: seq<Script>, after: seq<Script>, pairs: seq<Entry>, e: Entry, i: nat)
    requires i < |parent.entries| && Represented(parent, before, pairs, i) && before <= after
    ensures Represented(parent, after, pairs + [e], i)
  {
    var x :| x in pairs && Carries(parent, before, x, parent.entries[i]);
    assert x in pairs + [e] && Carries(parent, after, x, parent.entries[i]);
  }

  /** No earlier entry has the key of a new one. */
  lemma {:induction false} NewKey(parent: Store, db: string, i: nat, scripts: seq<Script>, x: Entry)
    requires WellFormed(parent) && i < |parent.entries| && InDatabase(parent, i + 1, db) && Represents(parent, db, i, scripts, x)
    ensures x.key != parent.entries[i].key
  {
  }

  lemma {:induction false} CollectOne(parent: Store, db: string, i: nat, before: seq<Script>, scripts: seq<Script>, dbId: nat, pairs: seq<Entry>, e: Entry)
    requires WellFormed(parent) && i < |parent.entries| && Collected(parent, db, i, before, dbId, pairs) && before <= scripts
    requires InDatabase(parent, i + 1, db) && e.db == dbId && Carries(parent, scripts, e, parent.entries[i])
    ensures Collected(parent, db, i + 1, scripts, dbId, pairs + [e])
  {
    forall x | x in pairs
      ensures x.key != e.key && Represents(parent, db, i + 1, scripts, x)
    {
      NewKey(parent, db, i, before, x);
      StillRepresents(parent, db, i, before, scripts, x);
    }
    assert Represents(parent, db, i + 1, scripts, e);
    forall j | 0 <= j < i + 1 && InDatabase(parent, j + 1, db)
      ensures Represented(parent, scripts, pairs + [e], j)
    {
      if j < i {
        StillRepresented(parent, before, scripts, pairs, e, j);
      } else {
        assert e in pairs + [e];
      }
    }
  }

  function Mapped(parent: Store, index: map<string, nat>, ts: seq<Transition>): seq<Transition>
    requires InRange(parent, ts)
  {
    if ts == [] then []
    else
      var t := ts[|ts| - 1];
      assert t in ts;
      var earlier := Mapped(parent, index, ts[..|ts| - 1]);
      var path := parent.scripts[t.script - 1].path;
      if path in index then earlier + [Transition(t.ordinal, index[path])] else earlier
  }

  function ListAt(ts: map<nat, seq<Transition>>, row: nat): seq<Transition> {
    if row in ts then ts[row] else []
  }

  /** `row` of the parent belongs to the database and is row `child` of the sub-workspace. */
  predicate Becomes(parent: Store, db: string, keyIndex: map<string, nat>, row: nat, child: nat) {
    InDatabase(parent, row, db) && parent.entries[row - 1].key in keyIndex && keyIndex[parent.entries[row - 1].key] == child
  }

  ghost predicate Follows(parent: Store, index: map<string, nat>, ts: map<nat, seq<Transition>>, row: nat, child: nat) {
    InRange(parent, TransitionsOf(parent, row)) && ListAt(ts, child) == Mapped(parent, index, TransitionsOf(parent, row))
  }

  /** The lists of the rows in `done` are mapped, and there are no others. */
  ghost predicate Relinked(parent: Store, db: string, keyIndex: map<string, nat>, index: map<string, nat>, done: set<nat>, ts: map<nat, seq<Transition>>) {
    && (forall row, child :: row in done && Becomes(parent, db, keyIndex, row, child) ==> Follows(parent, index, ts, row, child))
    && (forall child :: child in ts ==> exists row :: row in done && Becomes(parent, db, keyIndex, row, child))
  }

  /** Different rows of the database are different rows here. */
  ghost predicate Separate(parent: Store, db: string, keyIndex: map<string, nat>) {
    forall a, b, child :: Becomes(parent, db, keyIndex, a, child) && Becomes(parent, db, keyIndex, b, child) ==> a == b
  }

  lemma {:induction false} SeparateRows(parent: Store, db: string, entries: seq<Entry>, keyIndex: map<string, nat>)
    requires DistinctObjects(parent) && KeysIndexed(entries, keyIndex)
    ensures Separate(parent, db, keyIndex)
  {
  }

  lemma {:induction false} RelinkNone(parent: Store, db: string, keyIndex: map<string, nat>, index: map<string, nat>, done: set<nat>,
                                      ts: map<nat, seq<Transition>>, row: nat)
    requires Relinked(parent, db, keyIndex, index, done, ts) && forall child :: !Becomes(parent, db, keyIndex, row, child)
    ensures Relinked(parent, db, keyIndex, index, done + {row}, ts)
  {
  }

  lemma {:induction false} RelinkNew(parent: Store, db: string, keyIndex: map<string, nat>, index: map<string, nat>, done: set<nat>,
                                     ts: map<nat, seq<Transition>>, row: nat, child: nat)
    requires Separate(parent, db, keyIndex) && Relinked(parent, db, keyIndex, index, done, ts)
    requires row !in done && Becomes(parent, db, keyIndex, row, child)
    ensures child !in ts && forall r :: r in done ==> !Becomes(parent, db, keyIndex, r, child)
  {
  }

  lemma {:induction false} RelinkOne(parent: Store, db: string, keyIndex: map<string, nat>, index: map<string, nat>, done: set<nat>,
                                     ts: map<nat, seq<Transition>>, after: map<nat, seq<Transition>>, row: nat, child: nat)
    requires Separate(parent, db, keyIndex) && Relinked(parent, db, keyIndex, index, done, ts)
    requires row !in done && Becomes(parent, db, keyIndex, row, child) && Follows(parent, index, after, row, child)
    requires after.Keys <= ts.Keys + {child} && forall c :: c != child ==> ListAt(ts, c) == ListAt(after, c)
    ensures Relinked(parent, db, keyIndex, index, done + {row}, after)
  {
  }

  /** The transitions of a row are those of its origin, as far as their scripts are held. */
  lemma {:induction false} TransitionsFollow(parent: Store, db: string, keyIndex: map<string, nat>, index: map<string, nat>,
                                             ts: map<nat, seq<Transition>>, row: nat, child: nat)
    requires Separate(parent, db, keyIndex) && Becomes(parent, db, keyIndex, row, child)
    requires Relinked(parent, db, keyIndex, index, parent.transitions.Keys, ts)
    ensures Follows(parent, index, ts, row, child)
  {
  }

  /** All scripts of `ts` are held. */
  ghost predicate AllHeld(parent: Store, index: map<string, nat>, ts: seq<Transition>)
    requires InRange(parent, ts)
  {
    forall t :: t in ts ==> parent.scripts[t.script - 1].path in index
  }

  lemma {:induction false} MappedOneMore(parent: Store, index: map<string, nat>, ts: seq<Transition>, t: Transition)
    requires InRange(parent, ts + [t])
    ensures InRange(parent, ts) && 0 < t.script <= |parent.scripts|
    ensures var path := parent.scripts[t.script - 1].path;
            Mapped(parent, index, ts + [t]) ==
            if path in index then Mapped(parent, index, ts) + [Transition(t.ordinal, index[path])] else Mapped(parent, index, ts)
    ensures AllHeld(parent, index, ts + [t]) <==> AllHeld(parent, index, ts) && parent.scripts[t.script - 1].path in index
  {
  }

  lemma {:induction false} ViewsOneMore(scripts: seq<Script>, ts: seq<Transition>, t: Transition)
    requires (forall x :: x in ts ==> 0 < x.script <= |scripts|) && 0 < t.script <= |scripts|
    ensures forall x :: x in ts + [t] ==> 0 < x.script <= |scripts|
    ensures TransitionViews(scripts, ts + [t]) == TransitionViews(scripts, ts) + [(t.ordinal, scripts[t.script - 1])]
  {
  }

  /** `mapped` means what `ts` means if all its scripts are held, and is shorter otherwise. */
  ghost predicate Agrees(parent: Store, scripts: seq<Script>, index: map<string, nat>, ts: seq<Transition>, mapped: seq<Transition>)
    requires InRange(parent, ts)
  {
    && |mapped| <= |ts| && (forall t :: t in mapped ==> 0 < t.script <= |scripts|)
    && if AllHeld(parent, index, ts) then TransitionViews(scripts, mapped) == TransitionViews(parent.scripts, ts) else |mapped| < |ts|
  }

  /** One more transition whose script is held. */
  lemma {:induction false} AgreesWithHeld(parent: Store, scripts: seq<Script>, index: map<string, nat>, ts: seq<Transition>, t: Transition, id: nat)
    requires InRange(parent, ts + [t]) && InRange(parent, ts) && Agrees(parent, scripts, index, ts, Mapped(parent, index, ts))
    requires SameScript(parent, scripts, t.script, id)
    requires parent.scripts[t.script - 1].path in index && index[parent.scripts[t.script - 1].path] == id
    ensures Agrees(parent, scripts, index, ts + [t], Mapped(parent, index, ts + [t]))
  {
    MappedOneMore(parent, index, ts, t);
    ViewsOneMore(parent.scripts, ts, t);
    ViewsOneMore(scripts, Mapped(parent, index, ts), Transition(t.ordinal, id));
  }

  /** One more transition whose script is not held: it is dropped. */
  lemma {:induction false} AgreesWithDropped(parent: Store, scripts: seq<Script>, index: map<string, nat>, ts: seq<Transition>, t: Transition)
    requires InRange(parent, ts + [t]) && InRange(parent, ts) && Agrees(parent, scripts, index, ts, Mapped(parent, index, ts))
    requires 0 < t.script <= |parent.scripts| && parent.scripts[t.script - 1].path !in index
    ensures Agrees(parent, scripts, index, ts + [t], Mapped(parent, index, ts + [t]))
  {
  }

  lemma {:induction false} MappedViews(parent: Store, db: string, scripts: seq<Script>, index: map<string, nat>, ts: seq<Transition>)
    requires WellFormed(parent) && Shelf(parent, db, scripts, index) && InRange(parent, ts)
    ensures Agrees(parent, scripts, index, ts, Mapped(parent, index, ts))
  {
    if ts != [] {
      var n := |ts| - 1;
      var t := ts[n];
      assert ts == ts[..n] + [t];
      assert t in ts;
      MappedOneMore(parent, index, ts[..n], t);
      MappedViews(parent, db, scripts, index, ts[..n]);
      var script := parent.scripts[t.script - 1];
      if script.path in index {
        Replaced(parent, db, scripts, index, script);
        AgreesWithHeld(parent, scripts, index, ts[..n], t, index[script.path]);
      } else {
        AgreesWithDropped(parent, scripts, index, ts[..n], t);
      }
    }
  }

  /** The row here of the parent that the parent workspace records for `row`. */
  function ParentHere(parent: Store, keyIndex: map<string, nat>, row: nat): Option<nat> {
    if row in parent.parents && 0 < parent.parents[row] <= |parent.entries| && parent.entries[parent.parents[row] - 1].key in keyIndex
    then Some(keyIndex[parent.entries[parent.parents[row] - 1].key]) else None
  }

  function ParentAt(ps: map<nat, nat>, row: nat): Option<nat> {
    if row in ps then Some(ps[row]) else None
  }

  ghost predicate ParentsRelinked(parent: Store, db: string, keyIndex: map<string, nat>, done: set<nat>, ps: map<nat, nat>) {
    && (forall row, child :: row in done && Becomes(parent, db, keyIndex, row, child) ==> ParentAt(ps, child) == ParentHere(parent, keyIndex, row))
    && (forall child :: child in ps ==> exists row :: row in done && Becomes(parent, db, keyIndex, row, child))
  }

  lemma {:induction false} ParentsNew(parent: Store, db: string, keyIndex: map<string, nat>, done: set<nat>, ps: map<nat, nat>, row: nat, child: nat)
    requires Separate(parent, db, keyIndex) && ParentsRelinked(parent, db, keyIndex, done, ps)
    requires row !in done && Becomes(parent, db, keyIndex, row, child)
    ensures child !in ps && forall r :: r in done ==> !Becomes(parent, db, keyIndex, r, child)
  {
  }

  lemma {:induction false} ParentsNone(parent: Store, db: string, keyIndex: map<string, nat>, done: set<nat>, ps: map<nat, nat>, row: nat)
    requires ParentsRelinked(parent, db, keyIndex, done, ps) && forall child :: !Becomes(parent, db, keyIndex, row, child)
    ensures ParentsRelinked(parent, db, keyIndex, done + {row}, ps)
  {
  }

  lemma {:induction false} ParentsOne(parent: Store, db: string, keyIndex: map<string, nat>, done: set<nat>,
                                      ps: map<nat, nat>, after: map<nat, nat>, row: nat, child: nat)
    requires Separate(parent, db, keyIndex) && ParentsRelinked(parent, db, keyIndex, done, ps)
    requires row !in done && Becomes(parent, db, keyIndex, row, child) && ParentAt(after, child) == ParentHere(parent, keyIndex, row)
    requires after.Keys <= ps.Keys + {child} && forall c :: c != child ==> ParentAt(ps, c) == ParentAt(after, c)
    ensures ParentsRelinked(parent, db, keyIndex, done + {row}, after)
  {
  }

  lemma {:induction false} ParentsFollow(parent: Store, db: string, keyIndex: map<string, nat>, ps: map<nat, nat>, row: nat, child: nat)
    requires Separate(parent, db, keyIndex) && Becomes(parent, db, keyIndex, row, child)
    requires ParentsRelinked(parent, db, keyIndex, parent.parents.Keys, ps)
    ensures ParentAt(ps, child) == ParentHere(parent, keyIndex, row)
  {
  }

  /** The database has an object with this key. */
  ghost predicate HasKey(parent: Store, db: string, key: string) {
    exists row: nat :: InDatabase(parent, row, db) && parent.entries[row - 1].key == key
  }

  ghost predicate KnowsKeys(parent: Store, db: string, keyIndex: map<string, nat>) {
    forall key :: key in keyIndex <==> HasKey(parent, db, key)
  }

  ghost predicate HoldsWanted(parent: Store, db: string, index: map<string, nat>) {
    forall s :: s in parent.scripts ==> (s.path in index <==> Wanted(parent, db, s.path))
  }

  /** The sub-workspace holds exactly the wanted scripts. */
  lemma {:induction false} HeldIffWanted(parent: Store, db: string, scripts: seq<Script>, index: map<string, nat>, ids: map<nat, nat>,
                                         dbId: nat, entries: seq<Entry>)
    requires Shelf(parent, db, scripts, index) && CopiedUpTo(parent, db, |parent.scripts|, scripts, ids)
    requires Collected(parent, db, |parent.entries|, scripts, dbId, entries)
    ensures HoldsWanted(parent, db, index)
  {
    forall s | s in parent.scripts
      ensures s.path in index <==> Wanted(parent, db, s.path)
    {
      if s.path in index {
        assert scripts[index[s.path] - 1] in scripts;
      } else if Wanted(parent, db, s.path) {
        var i :| 0 <= i < |parent.scripts| && parent.scripts[i] == s;
        WantedIsHeld(parent, db, scripts, index, ids, dbId, entries, i);
      }
    }
  }

  lemma {:induction false} WantedIsHeld(parent: Store, db: string, scripts: seq<Script>, index: map<string, nat>, ids: map<nat, nat>,
                                        dbId: nat, entries: seq<Entry>, i: nat)
    requires Indexed(scripts, index) && CopiedUpTo(parent, db, |parent.scripts|, scripts, ids)
    requires Collected(parent, db, |parent.entries|, scripts, dbId, entries)
    requires i < |parent.scripts| && Wanted(parent, db, parent.scripts[i].path)
    ensures parent.scripts[i].path in index
  {
    var path := parent.scripts[i].path;
    if db + "/" <= path {
      assert i + 1 in ids && SameScript(parent, scripts, i + 1, ids[i + 1]);
    } else {
      var row: nat :| InDatabase(parent, row, db) && 0 < parent.entries[row - 1].script <= |parent.scripts|
                      && parent.scripts[parent.entries[row - 1].script - 1].path == path;
      var j := row - 1;
      assert InDatabase(parent, j + 1, db) && Represented(parent, scripts, entries, j);
      var e :| e in entries && Carries(parent, scripts, e, parent.entries[j]);
      assert SameScript(parent, scripts, parent.entries[j].script, e.script);
    }
  }

  lemma {:induction false} IndexedKeyExists(parent: Store, db: string, scripts: seq<Script>, dbId: nat, entries: seq<Entry>, r: nat)
    requires Collected(parent, db, |parent.entries|, scripts, dbId, entries) && 0 < r <= |entries|
    ensures HasKey(parent, db, entries[r - 1].key)
  {
  }

  lemma {:induction false} ExistingKeyIndexed(parent: Store, db: string, scripts: seq<Script>, dbId: nat, entries: seq<Entry>, keyIndex: map<string, nat>, row: nat)
    requires Collected(parent, db, |parent.entries|, scripts, dbId, entries) && KeysIndexed(entries, keyIndex) && InDatabase(parent, row, db)
    ensures parent.entries[row - 1].key in keyIndex
  {
    var j := row - 1;
    assert InDatabase(parent, j + 1, db) && Represented(parent, scripts, entries, j);
    var e :| e in entries && Carries(parent, scripts, e, parent.entries[j]);
    var k :| 0 <= k < |entries| && entries[k] == e;
  }

  lemma {:induction false} KnowsItsKeys(parent: Store, db: string, scripts: seq<Script>, dbId: nat, entries: seq<Entry>, keyIndex: map<string, nat>)
    requires Collected(parent, db, |parent.entries|, scripts, dbId, entries) && KeysIndexed(entries, keyIndex)
    ensures KnowsKeys(parent, db, keyIndex)
  {
    forall key
      ensures key in keyIndex <==> HasKey(parent, db, key)
    {
      if key in keyIndex {
        IndexedKeyExists(parent, db, scripts, dbId, entries, keyIndex[key]);
      }
      if HasKey(parent, db, key) {
        var row: nat :| InDatabase(parent, row, db) && parent.entries[row - 1].key == key;
        ExistingKeyIndexed(parent, db, scripts, dbId, entries, keyIndex, row);
      }
    }
  }

  /** The scripts of the row's transitions are all wanted. */
  ghost predicate WantsAll(parent: Store, db: string, ts: seq<Transition>)
    requires InRange(parent, ts)
  {
    forall t :: t in ts ==> Wanted(parent, db, parent.scripts[t.script - 1].path)
  }

  /** The row's transitions keep their meaning exactly if all their scripts are wanted. */
  lemma {:induction false} TransitionsKept(parent: Store, db: string, child: Store, keyIndex: map<string, nat>, index: map<string, nat>, row: nat, r: nat)
    requires WellFormed(parent) && Shelf(parent, db, child.scripts, index) && HoldsWanted(parent, db, index)
    requires InRange(parent, TransitionsOf(parent, row)) && Follows(parent, index, child.transitions, row, r)
    ensures forall t :: t in TransitionsOf(child, r) ==> 0 < t.script <= |child.scripts|
    ensures TransitionViews(child.scripts, TransitionsOf(child, r)) == TransitionViews(parent.scripts, TransitionsOf(parent, row))
            <==> WantsAll(parent, db, TransitionsOf(parent, row))
  {
    var ts := TransitionsOf(parent, row);
    var mapped := Mapped(parent, index, ts);
    assert TransitionsOf(child, r) == mapped;
    MappedViews(parent, db, child.scripts, index, ts);
    HeldMeansWanted(parent, db, index, ts);
    assert |TransitionViews(parent.scripts, ts)| == |ts|;
  }

  lemma {:induction false} HeldMeansWanted(parent: Store, db: string, index: map<string, nat>, ts: seq<Transition>)
    requires HoldsWanted(parent, db, index) && InRange(parent, ts)
    ensures AllHeld(parent, index, ts) <==> WantsAll(parent, db, ts)
  {
  }

  /** No parent is recorded, or one that is an object of the database. */
  ghost predicate ParentWithin(parent: Store, db: string, row: nat) {
    match ParentOf(parent, row)
    case Unrecorded => true
    case Missing => false
    case Recorded(key) => HasKey(parent, db, key)
  }

  /** The recorded parent is kept exactly if it is an object of the database. */
  lemma {:induction false} ParentKept(parent: Store, db: string, child: Store, keyIndex: map<string, nat>, row: nat, r: nat)
    requires KeysIndexed(child.entries, keyIndex) && KnowsKeys(parent, db, keyIndex)
    requires ParentAt(child.parents, r) == ParentHere(parent, keyIndex, row)
    ensures ParentOf(child, r) == ParentOf(parent, row) <==> ParentWithin(parent, db, row)
  {
  }

  lemma {:induction false} Rearranged(parent: Store, db: string, scripts: seq<Script>, dbId: nat, pairs: seq<Entry>, entries: seq<Entry>, keyIndex: map<string, nat>)
    requires Collected(parent, db, |parent.entries|, scripts, dbId, pairs)
    requires (forall e :: e in entries <==> e in pairs) && KeysIndexed(entries, keyIndex)
    ensures Collected(parent, db, |parent.entries|, scripts, dbId, entries)
  {
    forall i | 0 <= i < |parent.entries| && InDatabase(parent, i + 1, db)
      ensures Represented(parent, scripts, entries, i)
    {
      assert Represented(parent, scripts, pairs, i);
      var e :| e in pairs && Carries(parent, scripts, e, parent.entries[i]);
      assert e in entries;
    }
  }

  /** Where an entry of the sub-workspace comes from. */
  lemma {:induction false} Origin(parent: Store, db: string, scripts: seq<Script>, dbId: nat, entries: seq<Entry>, keyIndex: map<string, nat>, r: nat)
    returns (row: nat)
    requires Collected(parent, db, |parent.entries|, scripts, dbId, entries) && KeysIndexed(entries, keyIndex) && 0 < r <= |entries|
    ensures Becomes(parent, db, keyIndex, row, r) && Carries(parent, scripts, entries[r - 1], parent.entries[row - 1])
    ensures entries[r - 1].db == dbId
  {
    var e := entries[r - 1];
    assert e in entries && Represents(parent, db, |parent.entries|, scripts, e);
    var i :| 0 <= i < |parent.entries| && InDatabase(parent, i + 1, db) && Carries(parent, scripts, e, parent.entries[i]);
    row := i + 1;
  }

  /** The parts of a finished sub-workspace. */
  ghost predicate Assembled(parent: Store, db: string, child: Store, dbId: nat, keyIndex: map<string, nat>, index: map<string, nat>) {
    && dbId < |child.databases| && child.databases[dbId] == db
    && Shelf(parent, db, child.scripts, index) && HoldsWanted(parent, db, index)
    && KeysIndexed(child.entries, keyIndex) && KnowsKeys(parent, db, keyIndex)
    && (forall r :: 0 < r <= |child.entries| ==> HasOrigin(parent, db, child, dbId, keyIndex, index, r))
    && (forall r :: r in child.transitions ==> 0 < r <= |child.entries|)
  }

  /** Row `r` carries, follows and is linked like some row of the parent. */
  ghost predicate HasOrigin(parent: Store, db: string, child: Store, dbId: nat, keyIndex: map<string, nat>, index: map<string, nat>, r: nat)
    requires 0 < r <= |child.entries|
  {
    child.entries[r - 1].db == dbId
    && exists row: nat :: OriginOf(parent, db, child, keyIndex, index, row, r)
  }

  ghost predicate OriginOf(parent: Store, db: string, child: Store, keyIndex: map<string, nat>, index: map<string, nat>, row: nat, r: nat)
    requires 0 < r <= |child.entries|
  {
    && Becomes(parent, db, keyIndex, row, r) && Carries(parent, child.scripts, child.entries[r - 1], parent.entries[row - 1])
    && Follows(parent, index, child.transitions, row, r) && ParentAt(child.parents, r) == ParentHere(parent, keyIndex, row)
  }

  lemma {:induction false} Assemble(parent: Store, db: string, child: Store, dbId: nat, keyIndex: map<string, nat>, index: map<string, nat>, r: nat)
    requires Collected(parent, db, |parent.entries|, child.scripts, dbId, child.entries) && KeysIndexed(child.entries, keyIndex)
    requires Separate(parent, db, keyIndex) && Relinked(parent, db, keyIndex, index, parent.transitions.Keys, child.transitions)
    requires ParentsRelinked(parent, db, keyIndex, parent.parents.Keys, child.parents) && 0 < r <= |child.entries|
    ensures HasOrigin(parent, db, child, dbId, keyIndex, index, r)
  {
    var row := Origin(parent, db, child.scripts, dbId, child.entries, keyIndex, r);
    TransitionsFollow(parent, db, keyIndex, index, child.transitions, row, r);
    ParentsFollow(parent, db, keyIndex, child.parents, row, r);
    assert OriginOf(parent, db, child, keyIndex, index, row, r);
  }

  lemma {:induction false} ChildWellFormed(parent: Store, db: string, child: Store, dbId: nat, keyIndex: map<string, nat>, index: map<string, nat>)
    requires WellFormed(parent) && Assembled(parent, db, child, dbId, keyIndex, index)
    ensures WellFormed(child)
  {
    ChildRanges(parent, db, child, dbId, keyIndex, index);
  }

  lemma {:induction false} ChildRanges(parent: Store, db: string, child: Store, dbId: nat, keyIndex: map<string, nat>, index: map<string, nat>)
    requires WellFormed(parent) && Assembled(parent, db, child, dbId, keyIndex, index)
    ensures forall row :: row in child.transitions ==> InRange(child, child.transitions[row])
    ensures forall e :: e in child.entries ==> 0 < e.script <= |child.scripts|
  {
    forall row | row in child.transitions
      ensures InRange(child, child.transitions[row])
    {
      assert HasOrigin(parent, db, child, dbId, keyIndex, index, row);
      var origin: nat :| OriginOf(parent, db, child, keyIndex, index, origin, row);
      TransitionsKept(parent, db, child, keyIndex, index, origin, row);
    }
    forall e | e in child.entries
      ensures 0 < e.script <= |child.scripts|
    {
      var i :| 0 <= i < |child.entries| && child.entries[i] == e;
      assert HasOrigin(parent, db, child, dbId, keyIndex, index, i + 1);
    }
  }

  /** The scripts of the row's transitions are wanted, and its recorded parent, if any, is an object of the database. */
  ghost predicate SelfContained(parent: Store, db: string, row: nat)
    requires WellFormed(parent)
  {
    && WantsAll(parent, db, TransitionsOf(parent, row))
    && ParentWithin(parent, db, row)
  }

  lemma {:induction false} OnlyOrigin(parent: Store, db: string, child: Store, dbId: nat, keyIndex: map<string, nat>, index: map<string, nat>, row: nat, r: nat)
    requires Separate(parent, db, keyIndex) && Becomes(parent, db, keyIndex, row, r)
    requires 0 < r <= |child.entries| && HasOrigin(parent, db, child, dbId, keyIndex, index, r)
    ensures OriginOf(parent, db, child, keyIndex, index, row, r)
  {
  }

  lemma {:induction false} RowPreserved(parent: Store, db: string, child: Store, keyIndex: map<string, nat>, index: map<string, nat>, row: nat, r: nat)
    requires WellFormed(parent) && WellFormed(child) && Shelf(parent, db, child.scripts, index) && HoldsWanted(parent, db, index)
    requires KeysIndexed(child.entries, keyIndex) && KnowsKeys(parent, db, keyIndex)
    requires 0 < r <= |child.entries| && OriginOf(parent, db, child, keyIndex, index, row, r)
    ensures ViewOf(child, r) == ViewOf(parent, row) <==> SelfContained(parent, db, row)
  {
    TransitionsKept(parent, db, child, keyIndex, index, row, r);
    ParentKept(parent, db, child, keyIndex, row, r);
  }

  /**
   The meaning of a sub-workspace: its objects are exactly those of the database,
   and each means what it means in the parent if and only if it is self-contained.
   */
  ghost predicate Preserves(parent: Store, db: string, child: Store)
    requires WellFormed(parent)
  {
    && WellFormed(child) && (forall r :: 0 < r <= |child.entries| ==> InDatabase(child, r, db))
    && (forall key :: HasKey(child, db, key) <==> HasKey(parent, db, key))
    && (forall row: nat, r: nat :: InDatabase(parent, row, db) && InDatabase(child, r, db) && child.entries[r - 1].key == parent.entries[row - 1].key ==>
          (ViewOf(child, r) == ViewOf(parent, row) <==> SelfContained(parent, db, row)))
  }

  lemma {:induction false} AssembledPreserves(parent: Store, db: string, child: Store, dbId: nat, keyIndex: map<string, nat>, index: map<string, nat>)
    requires WellFormed(parent) && Assembled(parent, db, child, dbId, keyIndex, index) && Separate(parent, db, keyIndex)
    ensures Preserves(parent, db, child)
  {
    ChildWellFormed(parent, db, child, dbId, keyIndex, index);
    forall r | 0 < r <= |child.entries|
      ensures InDatabase(child, r, db)
    {
      assert HasOrigin(parent, db, child, dbId, keyIndex, index, r);
    }
    SameKeys(parent, db, child, keyIndex);
    forall row: nat, r: nat | InDatabase(parent, row, db) && InDatabase(child, r, db) && child.entries[r - 1].key == parent.entries[row - 1].key
      ensures ViewOf(child, r) == ViewOf(parent, row) <==> SelfContained(parent, db, row)
    {
      MatchPreserved(parent, db, child, dbId, keyIndex, index, row, r);
    }
  }

  lemma {:induction false} MatchPreserved(parent: Store, db: string, child: Store, dbId: nat, keyIndex: map<string, nat>, index: map<string, nat>, row: nat, r: nat)
    requires WellFormed(parent) && WellFormed(child) && Assembled(parent, db, child, dbId, keyIndex, index) && Separate(parent, db, keyIndex)
    requires InDatabase(parent, row, db) && 0 < r <= |child.entries| && child.entries[r - 1].key == parent.entries[row - 1].key
    ensures ViewOf(child, r) == ViewOf(parent, row) <==> SelfContained(parent, db, row)
  {
    var j := r - 1;
    assert child.entries[j].key in keyIndex && keyIndex[child.entries[j].key] == j + 1;
    OnlyOrigin(parent, db, child, dbId, keyIndex, index, row, r);
    RowPreserved(parent, db, child, keyIndex, index, row, r);
  }

  lemma {:induction false} SameKeys(parent: Store, db: string, child: Store, keyIndex: map<string, nat>)
    requires KeysIndexed(child.entries, keyIndex) && KnowsKeys(parent, db, keyIndex)
    requires forall r :: 0 < r <= |child.entries| ==> InDatabase(child, r, db)
    ensures forall key :: HasKey(child, db, key) <==> HasKey(parent, db, key)
  {
    forall key
      ensures HasKey(child, db, key) <==> key in keyIndex
    {
      if HasKey(child, db, key) {
        var r: nat :| InDatabase(child, r, db) && child.entries[r - 1].key == key;
        var j := r - 1;
        assert child.entries[j].key in keyIndex;
      }
      if key in keyIndex {
        assert InDatabase(child, keyIndex[key], db) && child.entries[keyIndex[key] - 1].key == key;
      }
    }
  }

  lemma {:induction false} AllOrigins(parent: Store, db: string, child: Store, dbId: nat, keyIndex: map<string, nat>, index: map<string, nat>)
    requires Collected(parent, db, |parent.entries|, child.scripts, dbId, child.entries) && KeysIndexed(child.entries, keyIndex)
    requires Separate(parent, db, keyIndex) && Relinked(parent, db, keyIndex, index, parent.transitions.Keys, child.transitions)
    requires ParentsRelinked(parent, db, keyIndex, parent.parents.Keys, child.parents)
    ensures forall r :: 0 < r <= |child.entries| ==> HasOrigin(parent, db, child, dbId, keyIndex, index, r)
  {
    forall r | 0 < r <= |child.entries|
      ensures HasOrigin(parent, db, child, dbId, keyIndex, index, r)
    {
      Assemble(parent, db, child, dbId, keyIndex, index, r);
    }
  }

  lemma {:induction false} LinkedRowsExist(parent: Store, db: string, entries: seq<Entry>, keyIndex: map<string, nat>, index: map<string, nat>, ts: map<nat, seq<Transition>>)
    requires KeysIndexed(entries, keyIndex) && Relinked(parent, db, keyIndex, index, parent.transitions.Keys, ts)
    ensures forall r :: r in ts ==> 0 < r <= |entries|
  {
  }

  lemma {:induction false} FinishedIsAssembled(parent: Store, db: string, child: Store, dbId: nat, keyIndex: map<string, nat>, index: map<string, nat>, ids: map<nat, nat>)
    requires Populated(parent, db, child.databases, child.scripts, index, child.entries, keyIndex, dbId, ids)
    requires Separate(parent, db, keyIndex) && Relinked(parent, db, keyIndex, index, parent.transitions.Keys, child.transitions)
    requires ParentsRelinked(parent, db, keyIndex, parent.parents.Keys, child.parents)
    ensures Assembled(parent, db, child, dbId, keyIndex, index) && Separate(parent, db, keyIndex)
  {
    HeldIffWanted(parent, db, child.scripts, index, ids, dbId, child.entries);
    KnowsItsKeys(parent, db, child.scripts, dbId, child.entries, keyIndex);
    AllOrigins(parent, db, child, dbId, keyIndex, index);
    LinkedRowsExist(parent, db, child.entries, keyIndex, index, child.transitions);
  }

  /** A tidy database loses nothing: transitions below its directory, and a parent among its own objects, if any. */
  lemma {:induction false} TidyRowIsKept(parent: Store, db: string, child: Store, row: nat, r: nat)
    requires WellFormed(parent) && Preserves(parent, db, child) && InDatabase(parent, row, db) && InDatabase(child, r, db)
    requires child.entries[r - 1].key == parent.entries[row - 1].key
    requires forall t :: t in TransitionsOf(parent, row) && 0 < t.script <= |parent.scripts| ==> db + "/" <= parent.scripts[t.script - 1].path
    requires row in parent.parents ==> InDatabase(parent, parent.parents[row], db)
    ensures ViewOf(child, r) == ViewOf(parent, row)
  {
    assert InRange(parent, TransitionsOf(parent, row));
    assert WantsAll(parent, db, TransitionsOf(parent, row));
    assert ParentWithin(parent, db, row) by {
      if row in parent.parents {
        assert HasKey(parent, db, parent.entries[parent.parents[row] - 1].key);
      }
    }
    assert SelfContained(parent, db, row);
  }

  // ---- All databases of a run ----

  /** The sub-workspaces a run builds, one for each name. */
  ghost predicate Children(parent: Store, names: seq<string>, children: seq<Store>)
    requires WellFormed(parent)
  {
    && |children| == |names| && Distinct(names)
    && forall i :: 0 <= i < |names| ==> Preserves(parent, names[i], children[i])
  }

  /** Row `r` of the `i`th sub-workspace is the object of row `row`. */
  ghost predicate StandsFor(parent: Store, names: seq<string>, children: seq<Store>, row: nat, i: nat, r: nat)
    requires |children| == |names|
  {
    && i < |names| && InDatabase(parent, row, names[i]) && InDatabase(children[i], r, names[i])
    && children[i].entries[r - 1].key == parent.entries[row - 1].key
  }

  /** An object is in exactly one row of exactly one sub-workspace if its database is among the names, and in none otherwise. */
  lemma {:induction false} RepresentedOnce(parent: Store, names: seq<string>, children: seq<Store>, row: nat)
    requires WellFormed(parent) && Children(parent, names, children) && 0 < row <= |parent.entries|
    ensures (exists i, r :: StandsFor(parent, names, children, row, i, r)) <==> DatabaseName(parent, parent.entries[row - 1].db) in names
    ensures forall i: nat, r: nat, j: nat, q: nat :: StandsFor(parent, names, children, row, i, r) && StandsFor(parent, names, children, row, j, q) ==> i == j && r == q
  {
    var db := DatabaseName(parent, parent.entries[row - 1].db);
    if db in names {
      var i: nat :| i < |names| && names[i] == db;
      assert InDatabase(parent, row, db);
      assert HasKey(parent, db, parent.entries[row - 1].key);
      assert HasKey(children[i], db, parent.entries[row - 1].key);
      var r: nat :| InDatabase(children[i], r, db) && children[i].entries[r - 1].key == parent.entries[row - 1].key;
      assert StandsFor(parent, names, children, row, i, r);
    }
    forall i: nat, r: nat, j: nat, q: nat | StandsFor(parent, names, children, row, i, r) && StandsFor(parent, names, children, row, j, q)
      ensures i == j && r == q
    {
      SameRowOnce(children[i], names[i], r, q);
    }
  }

  lemma {:induction false} SameRowOnce(s: Store, db: string, a: nat, b: nat)
    requires WellFormed(s) && InDatabase(s, a, db) && InDatabase(s, b, db) && s.entries[a - 1].key == s.entries[b - 1].key
    ensures a == b
  {
  }

  /** No sub-workspace holds anything else: each of its rows is exactly one object of the parent. */
  lemma {:induction false} RepresentsOne(parent: Store, names: seq<string>, children: seq<Store>, i: nat, r: nat)
    requires WellFormed(parent) && Children(parent, names, children) && i < |names| && 0 < r <= |children[i].entries|
    ensures exists row :: StandsFor(parent, names, children, row, i, r)
    ensures forall a, b :: StandsFor(parent, names, children, a, i, r) && StandsFor(parent, names, children, b, i, r) ==> a == b
  {
    var db, key := names[i], children[i].entries[r - 1].key;
    assert InDatabase(children[i], r, db);
    assert HasKey(children[i], db, key);
    var row: nat :| InDatabase(parent, row, db) && parent.entries[row - 1].key == key;
    assert StandsFor(parent, names, children, row, i, r);
    forall a, b | StandsFor(parent, names, children, a, i, r) && StandsFor(parent, names, children, b, i, r)
      ensures a == b
    {
      SameRowOnce(parent, db, a, b);
    }
  }

  /** The keys of the objects of one database among the first `n` rows. */
  function KeysIn(s: Store, db: string, n: nat): seq<string>
    requires n <= |s.entries|
  {
    if n == 0 then [] else KeysIn(s, db, n - 1) + if InDatabase(s, n, db) then [s.entries[n - 1].key] else []
  }

  lemma {:induction false} KeysInMembers(s: Store, db: string, n: nat)
    requires WellFormed(s) && n <= |s.entries|
    ensures forall key :: key in KeysIn(s, db, n) <==> exists row: nat :: row <= n && InDatabase(s, row, db) && s.entries[row - 1].key == key
    ensures Distinct(KeysIn(s, db, n))
  {
    if n > 0 {
      KeysInMembers(s, db, n - 1);
      var earlier, all := KeysIn(s, db, n - 1), KeysIn(s, db, n);
      forall key
        ensures key in all <==> exists row: nat :: row <= n && InDatabase(s, row, db) && s.entries[row - 1].key == key
      {
        assert key in all <==> key in earlier || (InDatabase(s, n, db) && s.entries[n - 1].key == key);
      }
      assert InDatabase(s, n, db) ==> s.entries[n - 1].key !in earlier;
    }
  }

  lemma {:induction false} AsManyMembers(keys: seq<string>)
    requires Distinct(keys)
    ensures |set k | k in keys| == |keys|
  {
    if keys != [] {
      var n := |keys| - 1;
      AsManyMembers(keys[..n]);
      assert keys[n] !in keys[..n];
      assert (set k | k in keys) == (set k | k in keys[..n]) + {keys[n]};
    }
  }

  lemma {:induction false} AsManyRows(parent: Store, db: string, child: Store)
    requires WellFormed(parent) && Preserves(parent, db, child)
    ensures |child.entries| == |KeysIn(parent, db, |parent.entries|)|
  {
    var ours, theirs := KeysIn(child, db, |child.entries|), KeysIn(parent, db, |parent.entries|);
    KeysInMembers(child, db, |child.entries|);
    KeysInMembers(parent, db, |parent.entries|);
    forall key
      ensures key in ours <==> key in theirs
    {
      assert HasKey(child, db, key) <==> HasKey(parent, db, key);
    }
    AsManyMembers(ours);
    AsManyMembers(theirs);
    assert (set k | k in ours) == (set k | k in theirs);
    AllInside(child, db, |child.entries|);
  }

  lemma {:induction false} AllInside(s: Store, db: string, n: nat)
    requires n <= |s.entries| && forall r :: 0 < r <= |s.entries| ==> InDatabase(s, r, db)
    ensures |KeysIn(s, db, n)| == n
  {
    if n > 0 {
      AllInside(s, db, n - 1);
    }
  }

  function Total(children: seq<Store>): nat {
    if children == [] then 0 else Total(children[..|children| - 1]) + |children[|children| - 1].entries|
  }

  function SumKeys(s: Store, names: seq<string>, n: nat): nat
    requires n <= |s.entries|
  {
    if names == [] then 0 else SumKeys(s, names[..|names| - 1], n) + |KeysIn(s, names[|names| - 1], n)|
  }

  /** The number of rows among the first `n` whose database is among the names. */
  function RowsCovered(s: Store, names: seq<string>, n: nat): nat
    requires n <= |s.entries|
  {
    if n == 0 then 0 else RowsCovered(s, names, n - 1) + if DatabaseName(s, s.entries[n - 1].db) in names then 1 else 0
  }

  lemma {:induction false} TotalIsSum(parent: Store, names: seq<string>, children: seq<Store>)
    requires WellFormed(parent) && Children(parent, names, children)
    ensures Total(children) == SumKeys(parent, names, |parent.entries|)
  {
    if names != [] {
      var n := |names| - 1;
      TotalIsSum(parent, names[..n], children[..n]);
      AsManyRows(parent, names[n], children[n]);
    }
  }

  lemma {:induction false} SumStep(s: Store, names: seq<string>, n: nat)
    requires Distinct(names) && 0 < n <= |s.entries|
    ensures SumKeys(s, names, n) == SumKeys(s, names, n - 1) + if DatabaseName(s, s.entries[n - 1].db) in names then 1 else 0
  {
    if names != [] {
      var m := |names| - 1;
      SumStep(s, names[..m], n);
      assert names == names[..m] + [names[m]] && names[m] !in names[..m];
    }
  }

  lemma {:induction false} SumIsCovered(s: Store, names: seq<string>, n: nat)
    requires Distinct(names) && n <= |s.entries|
    ensures SumKeys(s, names, n) == RowsCovered(s, names, n)
    decreases n, |names|
  {
    if n > 0 {
      SumStep(s, names, n);
      SumIsCovered(s, names, n - 1);
    } else if names != [] {
      SumIsCovered(s, names[..|names| - 1], 0);
    }
  }

  lemma {:induction false} CoveredMeans(s: Store, names: seq<string>, n: nat)
    requires n <= |s.entries|
    ensures RowsCovered(s, names, n) <= n
    ensures RowsCovered(s, names, n) == n <==> forall i :: 0 <= i < n ==> DatabaseName(s, s.entries[i].db) in names
  {
    if n > 0 {
      CoveredMeans(s, names, n - 1);
    }
  }

  /**
   The sub-workspaces of a run hold as many objects together as the workspace
   exactly if every object's database is among the names; names that are no
   database of the workspace, such as a second spelling of a directory, add nothing.
   */
  lemma {:induction false} DatabasesPartition(parent: Store, names: seq<string>, children: seq<Store>)
    requires WellFormed(parent) && Children(parent, names, children)
    ensures Total(children) <= |parent.entries|
    ensures Total(children) == |parent.entries| <==> forall e :: e in parent.entries ==> DatabaseName(parent, e.db) in names
    ensures forall i :: 0 <= i < |names| && children[i].entries != [] ==> names[i] in parent.databases + [""]
  {
    TotalIsSum(parent, names, children);
    SumIsCovered(parent, names, |parent.entries|);
    CoveredMeans(parent, names, |parent.entries|);
    forall i | 0 <= i < |names| && children[i].entries != []
      ensures names[i] in parent.databases + [""]
    {
      NoStrangers(parent, names, children, i);
    }
  }

  /** The loop over all databases of a run. */
  method SplitByDatabase(parent: Store, names: seq<string>) returns (children: seq<Store>)
    requires WellFormed(parent) && Distinct(names)
    ensures Children(parent, names, children) && Total(children) <= |parent.entries|
    ensures Total(children) == |parent.entries| <==> forall e :: e in parent.entries ==> DatabaseName(parent, e.db) in names
  {
    children := [];
    for i := 0 to |names|
      invariant |children| == i && forall k :: 0 <= k < i ==> Preserves(parent, names[k], children[k])
    {
      var child := ForCatalogDatabase(parent, names[i]);
      children := children + [child.AsStore()];
    }
    DatabasesPartition(parent, names, children);
  }

  lemma {:induction false} NoStrangers(parent: Store, names: seq<string>, children: seq<Store>, i: nat)
    requires WellFormed(parent) && Children(parent, names, children) && i < |names| && children[i].entries != []
    ensures names[i] in parent.databases + [""]
  {
    RepresentsOne(parent, names, children, i, 1);
    var row: nat :| StandsFor(parent, names, children, row, i, 1);
    assert DatabaseName(parent, parent.entries[row - 1].db) in parent.databases + [""];
  }

  /**
   A transition whose script is neither below the database's directory nor the
   script of one of its objects is missing from the sub-workspace.
   */
  lemma {:induction false} StrayTransitionIsDropped(parent: Store, db: string, child: Store, row: nat, r: nat, t: Transition)
    requires WellFormed(parent) && Preserves(parent, db, child) && InDatabase(parent, row, db) && InDatabase(child, r, db)
    requires child.entries[r - 1].key == parent.entries[row - 1].key && t in TransitionsOf(parent, row)
    requires 0 < t.script <= |parent.scripts| && !Wanted(parent, db, parent.scripts[t.script - 1].path)
    ensures ViewOf(child, r) != ViewOf(parent, row)
  {
  }
}
