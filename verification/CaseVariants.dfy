/**
 A tree with two spellings of one database directory that a scan accepts: table and
 transition lie below different spellings, and a file below both makes the prefixed
 transition path a known string. The transition is then lost on the way to the plan.
 */
module CaseVariants {
  import opened Prelude
  import opened DatabaseNames
  import Arena
  import TransitionOrder
  import SubWorkspace

  /** `name` is the spelling the table's file gave the database, `other` the one above the transition `file`. */
  datatype Tree = Tree(name: string, other: string, key: string, table: string, file: string, ordinal: string)

  ghost predicate TwoSpellings(tree: Tree) {
    && Folded(tree.name) == Folded(tree.other) && tree.name != tree.other && tree.name != "" && tree.other[0] != '/'
    && '\\' !in Transition(tree)
  }

  function Table(tree: Tree): string {
    tree.name + "/" + tree.table
  }

  function Transition(tree: Tree): string {
    tree.other + "/" + tree.file
  }

  /** The same file once more, below both spellings. */
  function Twin(tree: Tree): string {
    tree.name + "/" + Transition(tree)
  }

  // ---- The scan ----

  /** Both files are transitions of one table in what counts as two directories. */
  function Scanned(tree: Tree): TransitionOrder.Scan {
    TransitionOrder.Scan(
      ["", tree.name], [TransitionOrder.ObjectRow(1, tree.key)], {Table(tree), Transition(tree), Twin(tree)},
      map[(tree.name, tree.key) := [TransitionOrder.Staged(tree.ordinal, Twin(tree))],
          (tree.other, tree.key) := [TransitionOrder.Staged(tree.ordinal, Transition(tree))]])
  }

  /** Compaction may leave the table with the list staged below the other spelling. */
  lemma {:induction false} OtherListMayWin(tree: Tree, fingerprint: string -> nat)
    requires TwoSpellings(tree)
    ensures var scan := Scanned(tree);
            && TransitionOrder.Proper(scan)
            && TransitionOrder.Filled(scan, fingerprint, scan.staged.Keys, map[1 := [TransitionOrder.Staged(tree.ordinal, Transition(tree))]])
  {
    var scan := Scanned(tree);
    var ours, theirs := (tree.name, tree.key), (tree.other, tree.key);
    assert |Folded(tree.name)| == |tree.name| && |Folded("")| == 0;
    assert scan.objects[0] in scan.objects;
    TransitionOrder.RowMeans(scan, fingerprint, ours);
    TransitionOrder.SameRow(scan, fingerprint, ours, theirs);
    TransitionOrder.KeptOne(TransitionOrder.Staged(tree.ordinal, Twin(tree)), scan.scripts);
    TransitionOrder.KeptOne(TransitionOrder.Staged(tree.ordinal, Transition(tree)), scan.scripts);
    assert TransitionOrder.Writes(scan, fingerprint, theirs) == Some(1);
    assert theirs in scan.staged.Keys;
  }

  /** The string table of that scan: nothing panics. */
  lemma {:induction false} ScanSurvives(tree: Tree, ws: Arena.WorkspaceStrings)
    requires TwoSpellings(tree) && ws.Valid() && ws.Names() == [tree.name] && ws.scriptIds == [1] && ws.transitions == [(0, 2)]
    requires Arena.Texts(ws.paths) == [Table(tree), Transition(tree), Twin(tree)]
    ensures ws.PathsAreStrings()
  {
    ws.PathIsString(0);
    ws.PathIsString(2);
    Arena.SlashedIsSame(Transition(tree));
    Arena.VariantGetsSecondPrefix(tree.name, tree.other, Transition(tree));
    assert ws.ObjectPaths() == [Table(tree)];
    assert ws.TransitionPaths() == [Twin(tree)];
  }

  // ---- The sub-workspace ----

  function Stored(tree: Tree): SubWorkspace.Store {
    SubWorkspace.Store(
      ["", tree.name],
      [SubWorkspace.Script(Table(tree), "", 0, None), SubWorkspace.Script(Transition(tree), "", 0, None), SubWorkspace.Script(Twin(tree), "", 0, None)],
      [SubWorkspace.Entry(tree.key, 1, 1, 7)],
      map[1 := [SubWorkspace.Transition(tree.ordinal, 2)]],
      map[])
  }

  lemma {:induction false} NotBelow(tree: Tree)
    requires TwoSpellings(tree)
    ensures !(tree.name + "/" <= Transition(tree))
  {
    assert |Folded(tree.name)| == |tree.name| == |tree.other| == |Folded(tree.other)|;
    assert exists k :: 0 <= k < |tree.name| && tree.name[k] != tree.other[k];
    var k :| 0 <= k < |tree.name| && tree.name[k] != tree.other[k];
    assert Transition(tree)[k] == tree.other[k] && (tree.name + "/")[k] == tree.name[k];
  }

  lemma {:induction false} StoredIsWellFormed(tree: Tree)
    requires TwoSpellings(tree) && tree.table != Transition(tree)
    ensures SubWorkspace.WellFormed(Stored(tree))
  {
    NotBelow(tree);
    assert |Twin(tree)| > |Transition(tree)|;
    assert Table(tree)[|tree.name| + 1..] == tree.table && Twin(tree)[|tree.name| + 1..] == Transition(tree);
  }

  /** The sub-workspace of the database holds the table without its transition. */
  lemma {:induction false} TransitionIsLost(tree: Tree, child: SubWorkspace.Store, r: nat)
    requires TwoSpellings(tree) && tree.table != Transition(tree) && SubWorkspace.WellFormed(Stored(tree))
    requires SubWorkspace.Preserves(Stored(tree), tree.name, child) && SubWorkspace.InDatabase(child, r, tree.name)
    ensures SubWorkspace.ViewOf(child, r) != SubWorkspace.ViewOf(Stored(tree), 1)
  {
    NotBelow(tree);
    var s := Stored(tree);
    assert Table(tree)[..|tree.name| + 1] == tree.name + "/";
    assert !SubWorkspace.Wanted(s, tree.name, Transition(tree));
    assert SubWorkspace.HasKey(child, tree.name, child.entries[r - 1].key);
    SubWorkspace.StrayTransitionIsDropped(s, tree.name, child, 1, r, SubWorkspace.Transition(tree.ordinal, 2));
  }

  /** The whole way: the sub-workspace that is built holds the table without its transition. */
  method SubWorkspaceLosesIt(tree: Tree) returns (child: SubWorkspace.Workspace, r: nat)
    requires TwoSpellings(tree) && tree.table != Transition(tree)
    ensures SubWorkspace.WellFormed(Stored(tree)) && SubWorkspace.WellFormed(child.AsStore())
    ensures SubWorkspace.InDatabase(child.AsStore(), r, tree.name) && child.entries[r - 1].key == tree.key
    ensures SubWorkspace.ViewOf(child.AsStore(), r) != SubWorkspace.ViewOf(Stored(tree), 1)
  {
    StoredIsWellFormed(tree);
    child := SubWorkspace.ForCatalogDatabase(Stored(tree), tree.name);
    assert SubWorkspace.InDatabase(Stored(tree), 1, tree.name);
    assert SubWorkspace.HasKey(Stored(tree), tree.name, tree.key);
    assert SubWorkspace.HasKey(child.AsStore(), tree.name, tree.key);
    r := 1;
    assert SubWorkspace.InDatabase(child.AsStore(), r, tree.name);
    assert SubWorkspace.HasKey(child.AsStore(), tree.name, child.entries[0].key);
    TransitionIsLost(tree, child.AsStore(), r);
  }

  const SALES := Tree("Sales", "sales", "dbo/tables/t", "dbo/tables/t.sql", "dbo/tables/_migrations/t/001_abcdef0_x.sql", "001")

  lemma {:induction false} NoBackslash()
    ensures '\\' !in SALES.file && '\\' !in SALES.other
  {
  }

  /** An instance. */
  lemma {:induction false} SalesHasTwoSpellings()
    ensures TwoSpellings(SALES) && SALES.table != Transition(SALES)
  {
    NoBackslash();
    assert Folded("Sales") == Folded("sales");
    assert "Sales"[0] != "sales"[0];
    assert SALES.table[0] == 'd' && Transition(SALES)[0] == 's';
  }
}
