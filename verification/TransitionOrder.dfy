/**
 From staged transition files to each table's ordered list: ordinals are unique per
 table, so the list does not depend on the order in which files or maps are visited.
 */
module TransitionOrder {
  import opened Prelude
  import opened Sorting
  import opened DatabaseNames

  /** A transition file of a table: its ordinal and its path. */
  datatype Staged = Staged(ordinal: string, path: string)

  ghost predicate UniqueOrdinals(list: seq<Staged>) {
    forall i, j :: 0 <= i < j < |list| ==> list[i].ordinal != list[j].ordinal
  }

  predicate ByOrdinal(a: Staged, b: Staged) {
    StringLe(a.ordinal, b.ordinal)
  }

  function PathsOf(list: seq<Staged>): (paths: seq<string>)
    ensures |paths| == |list| && forall i :: 0 <= i < |paths| ==> paths[i] == list[i].path
  {
    seq(|list|, i requires 0 <= i < |list| => list[i].path)
  }

  /** A table's transitions in apply order. */
  function OrderedPaths(list: seq<Staged>): seq<string> {
    PathsOf(Sort(list, ByOrdinal))
  }

  lemma {:induction false} OrdinalOrdering()
    ensures Ordering(ByOrdinal)
  {
    forall x, y ensures ByOrdinal(x, y) || ByOrdinal(y, x) { StringLeTotal(x.ordinal, y.ordinal); }
    forall x, y, z | ByOrdinal(x, y) && ByOrdinal(y, z) ensures ByOrdinal(x, z) { StringLeTransitive(x.ordinal, y.ordinal, z.ordinal); }
  }

  lemma {:induction false} NoTies(list: seq<Staged>, x: Staged, y: Staged)
    requires UniqueOrdinals(list) && x in list && y in list && ByOrdinal(x, y) && ByOrdinal(y, x)
    ensures x == y
  {
    StringLeAntisymmetric(x.ordinal, y.ordinal);
  }

  /** The order of a table's transitions does not depend on the order in which its files were found. */
  lemma {:induction false} OrderIndependent(xs: seq<Staged>, ys: seq<Staged>)
    requires UniqueOrdinals(xs) && multiset(xs) == multiset(ys)
    ensures OrderedPaths(xs) == OrderedPaths(ys)
  {
    OrdinalOrdering();
    forall x, y | x in xs && y in xs && ByOrdinal(x, y) && ByOrdinal(y, x)
      ensures x == y
    {
      NoTies(xs, x, y);
    }
    SortWhateverTheOrder(xs, ys, ByOrdinal);
  }

  /** Every file is applied once, and each before those with greater ordinals. */
  lemma {:induction false} OrderedByOrdinal(list: seq<Staged>) returns (files: seq<Staged>)
    ensures OrderedPaths(list) == PathsOf(files) && multiset(files) == multiset(list)
    ensures forall i, j :: 0 <= i < j < |files| ==> Ascends(files[i].ordinal, files[j].ordinal)
  {
    files := Sort(list, ByOrdinal);
    OrdinalOrdering();
    SortKeeps(list, ByOrdinal);
    SortSorts(list, ByOrdinal);
    forall i, j | 0 <= i < j < |files|
      ensures Ascends(files[i].ordinal, files[j].ordinal)
    {
      StringLeMeans(files[i].ordinal, files[j].ordinal);
    }
  }

  /** The ordinals of a scan have three digits. */
  predicate ThreeDigits(s: string) {
    |s| == 3 && forall c :: c in s ==> '0' <= c <= '9'
  }

  function Number(s: string): int {
    if |s| != 3 then 0
    else 100 * (s[0] as int - '0' as int) + 10 * (s[1] as int - '0' as int) + (s[2] as int - '0' as int)
  }

  function Digit(d: nat): (c: char)
    requires d < 10
    ensures '0' <= c <= '9' && c as int - '0' as int == d
  {
    '0' + d as char
  }

  /** Every number below a thousand can be written. */
  lemma {:induction false} NumbersAreWritten(n: nat) returns (s: string)
    requires n < 1000
    ensures ThreeDigits(s) && Number(s) == n
  {
    s := [Digit(n / 100), Digit(n / 10 % 10), Digit(n % 10)];
  }

  lemma {:induction false} AscendsByNumber(a: string, b: string)
    requires ThreeDigits(a) && ThreeDigits(b)
    ensures Ascends(a, b) <==> Number(a) <= Number(b)
  {
    forall k | 0 <= k < 3
      ensures '0' <= a[k] <= '9' && '0' <= b[k] <= '9'
    {
      assert a[k] in a && b[k] in b;
    }
    assert a == b <==> a[0] == b[0] && a[1] == b[1] && a[2] == b[2];
    assert SmallerAt(a, b, 0) <==> a[0] < b[0];
    assert SmallerAt(a, b, 1) <==> a[0] == b[0] && a[1] < b[1];
    assert SmallerAt(a, b, 2) <==> a[0] == b[0] && a[1] == b[1] && a[2] < b[2];
  }

  lemma {:induction false} SameNumber(a: string, b: string)
    requires ThreeDigits(a) && ThreeDigits(b) && Number(a) == Number(b)
    ensures a == b
  {
    AscendsByNumber(a, b);
    AscendsByNumber(b, a);
    StringLeMeans(a, b);
    StringLeMeans(b, a);
    StringLeAntisymmetric(a, b);
  }

  /** With the three-digit ordinals of a scan, unique in each table, the numbers rise strictly. */
  lemma {:induction false} OrderedByNumber(list: seq<Staged>) returns (files: seq<Staged>)
    requires UniqueOrdinals(list) && forall f :: f in list ==> ThreeDigits(f.ordinal)
    ensures OrderedPaths(list) == PathsOf(files) && multiset(files) == multiset(list)
    ensures forall i, j :: 0 <= i < j < |files| ==> Number(files[i].ordinal) < Number(files[j].ordinal)
  {
    files := OrderedByOrdinal(list);
    SameBagSameMembers(files, list);
    DistinctWhateverTheOrder(list, files);
    forall i, j | 0 <= i < j < |files|
      ensures Number(files[i].ordinal) < Number(files[j].ordinal)
    {
      assert files[i] in files && files[j] in files;
      AscendsByNumber(files[i].ordinal, files[j].ordinal);
      var a :| 0 <= a < |list| && list[a] == files[i];
      var b :| 0 <= b < |list| && list[b] == files[j];
      assert a != b;
      if Number(files[i].ordinal) == Number(files[j].ordinal) {
        SameNumber(files[i].ordinal, files[j].ordinal);
      }
    }
  }

  /** A database directory and the key of a table in it. */
  type TableKey = (string, string)

  /** An object of the workspace: the id of its database, and its key. */
  datatype ObjectRow = ObjectRow(db: nat, key: string)

  /** What the scan has collected: known database names, objects, registered script paths, staged transition files. */
  datatype Scan = Scan(names: seq<string>, objects: seq<ObjectRow>, scripts: set<string>, staged: map<TableKey, seq<Staged>>)

  /** The last 1-based row with this database id and key fingerprint, 0 when there is none. */
  function LastRow(objects: seq<ObjectRow>, fingerprint: string -> nat, db: nat, mark: nat): (row: nat)
    ensures row <= |objects|
    ensures row > 0 ==> objects[row - 1].db == db && fingerprint(objects[row - 1].key) == mark
    ensures row == 0 ==> forall o :: o in objects ==> o.db != db || fingerprint(o.key) != mark
  {
    if objects == [] then 0
    else
      var n := |objects| - 1;
      if objects[n].db == db && fingerprint(objects[n].key) == mark then n + 1 else LastRow(objects[..n], fingerprint, db, mark)
  }

  /** The row a staged table becomes, 0 when its table file is gone. */
  function RowFor(scan: Scan, fingerprint: string -> nat, table: TableKey): (row: nat)
    ensures row <= |scan.objects|
  {
    LastRow(scan.objects, fingerprint, Find(scan.names, table.0), fingerprint(table.1))
  }

  /** As `intern_database` leaves it: the empty name has id 0. */
  ghost predicate Proper(scan: Scan) {
    [""] <= scan.names && NoTwins(scan.names) && forall o :: o in scan.objects ==> o.db < |scan.names|
  }

  /** A staged table has a row exactly if some object has its key and, up to case, its directory's name. */
  lemma {:induction false} RowMeans(scan: Scan, fingerprint: string -> nat, t: TableKey)
    requires Proper(scan)
    ensures RowFor(scan, fingerprint, t) > 0 <==>
              exists o :: o in scan.objects && Folded(scan.names[o.db]) == Folded(t.0) && fingerprint(o.key) == fingerprint(t.1)
  {
  }

  /** Two staged tables become one row exactly if their keys are one key and their directories one name up to case. */
  lemma {:induction false} SameRow(scan: Scan, fingerprint: string -> nat, a: TableKey, b: TableKey)
    requires Proper(scan) && RowFor(scan, fingerprint, a) > 0
    ensures RowFor(scan, fingerprint, a) == RowFor(scan, fingerprint, b) <==> Folded(a.0) == Folded(b.0) && fingerprint(a.1) == fingerprint(b.1)
  {
  }

  /** The files of a list whose scripts are registered. */
  function Kept(list: seq<Staged>, scripts: set<string>): seq<Staged> {
    if list == [] then []
    else
      var n := |list| - 1;
      if list[n].path in scripts then Kept(list[..n], scripts) + [list[n]] else Kept(list[..n], scripts)
  }

  /** Exactly the registered files are kept, as often as they were staged. */
  lemma {:induction false} KeptMeans(list: seq<Staged>, scripts: set<string>, f: Staged)
    ensures multiset(Kept(list, scripts))[f] == if f.path in scripts then multiset(list)[f] else 0
  {
    if list != [] {
      var n := |list| - 1;
      KeptMeans(list[..n], scripts, f);
      assert list == list[..n] + [list[n]];
    }
  }

  /** When all are registered, nothing moves. */
  lemma {:induction false} KeptAll(list: seq<Staged>, scripts: set<string>)
    requires forall f :: f in list ==> f.path in scripts
    ensures Kept(list, scripts) == list
  {
    if list != [] {
      var n := |list| - 1;
      KeptAll(list[..n], scripts);
      assert list == list[..n] + [list[n]];
    }
  }

  /** The files a staged table would put into its row. */
  function Files(scan: Scan, t: TableKey): seq<Staged> {
    if t in scan.staged then Kept(scan.staged[t], scan.scripts) else []
  }

  /** The row `t` writes, if any. */
  function Writes(scan: Scan, fingerprint: string -> nat, t: TableKey): Option<nat> {
    var row := RowFor(scan, fingerprint, t);
    if row > 0 && Files(scan, t) != [] then Some(row) else None
  }

  /** Each row has the files of one of the tables in `done` that write it, and no table in `done` is left without a row. */
  ghost predicate Filled(scan: Scan, fingerprint: string -> nat, done: set<TableKey>, byRow: map<nat, seq<Staged>>) {
    && (forall t :: t in done && Writes(scan, fingerprint, t).Some? ==> Writes(scan, fingerprint, t).value in byRow)
    && (forall row :: row in byRow ==> exists t :: t in done && Writes(scan, fingerprint, t) == Some(row) && byRow[row] == Files(scan, t))
  }

  /** Nothing is lost: every staged table with a row has its files there, and nothing else is there. */
  ghost predicate Compacted(scan: Scan, fingerprint: string -> nat, byRow: map<nat, seq<Staged>>) {
    && (forall t :: t in scan.staged && Writes(scan, fingerprint, t).Some? ==>
          Writes(scan, fingerprint, t).value in byRow && byRow[Writes(scan, fingerprint, t).value] == Files(scan, t))
    && (forall row :: row in byRow ==> exists t :: t in scan.staged && Writes(scan, fingerprint, t) == Some(row))
  }

  /** Two staged tables that differ only in how their directory is spelled, with different files. */
  ghost predicate Clash(scan: Scan, fingerprint: string -> nat, a: TableKey, b: TableKey) {
    && Folded(a.0) == Folded(b.0) && fingerprint(a.1) == fingerprint(b.1) && RowFor(scan, fingerprint, a) > 0
    && Files(scan, a) != [] && Files(scan, b) != [] && Files(scan, a) != Files(scan, b)
  }

  ghost predicate NoClash(scan: Scan, fingerprint: string -> nat) {
    forall a, b :: a in scan.staged && b in scan.staged ==> !Clash(scan, fingerprint, a, b)
  }

  lemma {:induction false} ClashMeans(scan: Scan, fingerprint: string -> nat, a: TableKey, b: TableKey)
    requires Proper(scan)
    ensures Clash(scan, fingerprint, a, b) <==>
              && Writes(scan, fingerprint, a).Some? && Writes(scan, fingerprint, a) == Writes(scan, fingerprint, b)
              && Files(scan, a) != Files(scan, b)
  {
  }

  /** In whatever order the tables were visited, nothing is lost exactly if no two of them clash. */
  lemma {:induction false} CompactedIff(scan: Scan, fingerprint: string -> nat, byRow: map<nat, seq<Staged>>)
    requires Proper(scan) && Filled(scan, fingerprint, scan.staged.Keys, byRow)
    ensures Compacted(scan, fingerprint, byRow) <==> NoClash(scan, fingerprint)
  {
    forall a, b
      ensures Clash(scan, fingerprint, a, b) <==>
                && Writes(scan, fingerprint, a).Some? && Writes(scan, fingerprint, a) == Writes(scan, fingerprint, b)
                && Files(scan, a) != Files(scan, b)
    {
      ClashMeans(scan, fingerprint, a, b);
    }
    if NoClash(scan, fingerprint) {
      forall t | t in scan.staged && Writes(scan, fingerprint, t).Some?
        ensures byRow[Writes(scan, fingerprint, t).value] == Files(scan, t)
      {
        var row := Writes(scan, fingerprint, t).value;
        var u :| u in scan.staged.Keys && Writes(scan, fingerprint, u) == Some(row) && byRow[row] == Files(scan, u);
        assert !Clash(scan, fingerprint, t, u);
      }
    }
  }

  /** The condition does not depend on the result: with a clash, no result whatever holds all the lists. */
  lemma {:induction false} ClashLosesAList(scan: Scan, fingerprint: string -> nat, a: TableKey, b: TableKey, byRow: map<nat, seq<Staged>>)
    requires Proper(scan) && a in scan.staged && b in scan.staged && Clash(scan, fingerprint, a, b)
    ensures !Compacted(scan, fingerprint, byRow)
  {
    ClashMeans(scan, fingerprint, a, b);
  }

  /** Directories that are distinct up to case never clash, as long as different keys have different fingerprints. */
  lemma {:induction false} DistinctDirectoriesKeepAll(scan: Scan, fingerprint: string -> nat)
    requires forall a, b :: a in scan.staged && b in scan.staged && Folded(a.0) == Folded(b.0) ==> a.0 == b.0
    requires forall a, b :: a in scan.staged && b in scan.staged && fingerprint(a.1) == fingerprint(b.1) ==> a.1 == b.1
    ensures NoClash(scan, fingerprint)
  {
  }

  /** The result is determined: two visits of the same staging that lose nothing agree on every row. */
  lemma {:induction false} CompactedOnce(scan: Scan, fingerprint: string -> nat, a: map<nat, seq<Staged>>, b: map<nat, seq<Staged>>)
    requires Compacted(scan, fingerprint, a) && Compacted(scan, fingerprint, b)
    ensures a == b
  {
  }

  /** What a lookup by database id and key fingerprint gives once the first `n` objects are indexed. */
  ghost predicate RowsIndexed(objects: seq<ObjectRow>, fingerprint: string -> nat, index: map<(nat, nat), nat>) {
    forall db: nat, mark: nat :: LastRow(objects, fingerprint, db, mark) == if (db, mark) in index then index[(db, mark)] else 0
  }

  /** The scan's state that compaction reads and writes; a key is looked up by its fingerprint. */
  class TransitionStaging {
    const fingerprint: string -> nat
    var names: seq<string>
    var objects: seq<ObjectRow>
    var scripts: set<string>
    var staged: map<TableKey, seq<Staged>>
    var byRow: map<nat, seq<Staged>>

    ghost predicate Valid()
      reads this
    {
      Proper(AsScan()) && forall table :: table in staged ==> staged[table] != [] && UniqueOrdinals(staged[table])
    }

    function AsScan(): Scan
      reads this
    {
      Scan(names, objects, scripts, staged)
    }

    constructor (fingerprint: string -> nat)
      ensures Valid() && staged == map[] && names == [""] && objects == [] && scripts == {} && byRow == map[]
      ensures this.fingerprint == fingerprint
    {
      this.fingerprint := fingerprint;
      names, objects, scripts, staged, byRow := [""], [], {}, map[], map[];
    }

    function List(table: TableKey): seq<Staged>
      reads this
    {
      if table in staged then staged[table] else []
    }

    /** Refuses a second file with the same ordinal for one table of one database; otherwise appends. */
    method PushTransitionStaging(table: TableKey, file: Staged) returns (ok: bool)
      requires Valid()
      modifies this`staged
      ensures Valid()
      ensures ok <==> forall f :: f in old(List(table)) ==> f.ordinal != file.ordinal
      ensures List(table) == if ok then old(List(table)) + [file] else old(List(table))
      ensures staged == if ok then old(staged)[table := List(table)] else old(staged)
    {
      if table in staged && exists f :: f in staged[table] && f.ordinal == file.ordinal {
        return false;
      }
      var list := List(table);
      staged := staged[table := list + [file]];
      return true;
    }

    /** The row of every database id and key fingerprint; a later row replaces an earlier one. */
    method IndexRows() returns (index: map<(nat, nat), nat>)
      ensures RowsIndexed(objects, fingerprint, index)
    {
      index := map[];
      for i := 0 to |objects|
        invariant RowsIndexed(objects[..i], fingerprint, index)
      {
        assert objects[..i + 1][..i] == objects[..i];
        index := index[(objects[i].db, fingerprint(objects[i].key)) := i + 1];
      }
      assert objects[..|objects|] == objects;
    }

    method InternDatabase(name: string) returns (id: nat)
      requires [""] <= names
      modifies this`names
      ensures names == old(Interned(names, name)) && id == old(Find(names, name))
    {
      if name == "" {
        return 0;
      }
      id := Find(names, name);
      if id == |names| {
        names := names + [name];
      }
    }

    /** The staged files whose scripts are registered. */
    method KeepRegistered(list: seq<Staged>) returns (kept: seq<Staged>)
      ensures kept == Kept(list, scripts)
    {
      kept := [];
      for i := 0 to |list|
        invariant kept == Kept(list[..i], scripts)
      {
        assert list[..i + 1][..i] == list[..i];
        if list[i].path in scripts {
          kept := kept + [list[i]];
        }
      }
      assert list[..|list|] == list;
    }

    /** Registers the table's directory and looks its row up by database id and key. */
    method ResolveRow(t: TableKey, index: map<(nat, nat), nat>, ghost scan: Scan) returns (row: nat)
      requires Proper(scan) && scan.names <= names && RowsIndexed(scan.objects, fingerprint, index)
      modifies this`names
      ensures scan.names <= names && row == RowFor(scan, fingerprint, t)
    {
      FindStays(scan.names, names, t.0);
      var db := InternDatabase(t.0);
      RowIsFound(scan, fingerprint, t, db, index);
      row := if (db, fingerprint(t.1)) in index then index[(db, fingerprint(t.1))] else 0;
    }

    /** One staged table: its database id, its row, its registered files. */
    method CompactTable(t: TableKey, list: seq<Staged>, index: map<(nat, nat), nat>, ghost scan: Scan, ghost done: set<TableKey>)
      requires Proper(scan) && scan.names <= names && scan.scripts == scripts && RowsIndexed(scan.objects, fingerprint, index)
      requires t in scan.staged && list == scan.staged[t] && Filled(scan, fingerprint, done, byRow)
      modifies this`names, this`byRow
      ensures scan.names <= names && Filled(scan, fingerprint, done + {t}, byRow)
    {
      var row := ResolveRow(t, index, scan);
      var files := KeepRegistered(list);
      FillOne(scan, fingerprint, done, byRow, t);
      if row != 0 && files != [] {
        byRow := byRow[row := files];
      }
    }

    /**
     Empties the staging into the rows, visiting the staged tables in any order.
     Every staged table with a row has its files there, and nothing else is
     there, exactly if no two staged tables clash.
     */
    method CompactTransitions()
      requires Valid()
      modifies this`names, this`staged, this`byRow
      ensures staged == map[] && old(names) <= names
      ensures Filled(old(AsScan()), fingerprint, old(staged).Keys, byRow)
      ensures Compacted(old(AsScan()), fingerprint, byRow) <==> NoClash(old(AsScan()), fingerprint)
    {
      ghost var scan := AsScan();
      var taken := staged;
      staged, byRow := map[], map[];
      var index := IndexRows();
      var rest := taken.Keys;
      ghost var done: set<TableKey> := {};
      while rest != {}
        invariant staged == map[] && scan.names <= names
        invariant done !! rest && done + rest == taken.Keys && Filled(scan, fingerprint, done, byRow)
        decreases |rest|
      {
        var t :| t in rest;
        CompactTable(t, taken[t], index, scan, done);
        rest, done := rest - {t}, done + {t};
      }
      CompactedIff(scan, fingerprint, byRow);
    }
  }

  lemma {:induction false} RowIsFound(scan: Scan, fingerprint: string -> nat, t: TableKey, db: nat, index: map<(nat, nat), nat>)
    requires Proper(scan) && RowsIndexed(scan.objects, fingerprint, index)
    requires if Find(scan.names, t.0) < |scan.names| then db == Find(scan.names, t.0) else db >= |scan.names|
    ensures RowFor(scan, fingerprint, t) == if (db, fingerprint(t.1)) in index then index[(db, fingerprint(t.1))] else 0
  {
  }

  function Put(byRow: map<nat, seq<Staged>>, row: Option<nat>, files: seq<Staged>): map<nat, seq<Staged>> {
    if row.Some? then byRow[row.value := files] else byRow
  }

  lemma {:induction false} FillOne(scan: Scan, fingerprint: string -> nat, done: set<TableKey>, byRow: map<nat, seq<Staged>>, t: TableKey)
    requires Filled(scan, fingerprint, done, byRow) && t in scan.staged
    ensures Filled(scan, fingerprint, done + {t}, Put(byRow, Writes(scan, fingerprint, t), Files(scan, t)))
  {
  }

  /** A database known as `name`, whose one table has a transition below each of two spellings of its directory. */
  function TwoSpellings(name: string, other: string, key: string, x: Staged, y: Staged): Scan {
    Scan(["", name], [ObjectRow(1, key)], {x.path, y.path}, map[(name, key) := [x], (other, key) := [y]])
  }

  /** Two spellings of one database directory become the same row, and one of the two lists is lost. */
  lemma {:induction false} SpellingsLoseAList(name: string, other: string, key: string, x: Staged, y: Staged,
                                              fingerprint: string -> nat, byRow: map<nat, seq<Staged>>)
    requires Folded(name) == Folded(other) && name != other && name != "" && x != y
    ensures var scan := TwoSpellings(name, other, key, x, y); Proper(scan) && !Compacted(scan, fingerprint, byRow)
  {
    var scan := TwoSpellings(name, other, key, x, y);
    assert |Folded(name)| == |name| && |Folded("")| == 0;
    assert scan.objects[0] in scan.objects;
    RowMeans(scan, fingerprint, (name, key));
    KeptOne(x, scan.scripts);
    KeptOne(y, scan.scripts);
    ClashLosesAList(scan, fingerprint, (name, key), (other, key), byRow);
  }

  const FIRST := Staged("001", "Sales/dbo/tables/_migrations/t/001_abcdef0_x.sql")
  const SECOND := Staged("002", "sales/dbo/tables/_migrations/t/002_abcdef1_y.sql")

  lemma {:induction false} CaseVariantsLoseAList(fingerprint: string -> nat, byRow: map<nat, seq<Staged>>)
    ensures !Compacted(TwoSpellings("Sales", "sales", "dbo/tables/t", FIRST, SECOND), fingerprint, byRow)
  {
    assert Folded("Sales") == Folded("sales");
    assert "Sales"[0] != "sales"[0] && "001"[2] != "002"[2];
    SpellingsLoseAList("Sales", "sales", "dbo/tables/t", FIRST, SECOND, fingerprint, byRow);
  }

  lemma {:induction false} KeptOne(file: Staged, scripts: set<string>)
    requires file.path in scripts
    ensures Kept([file], scripts) == [file]
  {
  }
}
