/**
 The string arena: every distinct string of a workspace in one buffer, addressed by
 32-bit offset and length. Strings are sequences of bytes here; positions are cut to
 32 bits where they are stored.
 */
module Arena {
  import opened Prelude
  import opened DatabaseNames

  const LIMIT: nat := 0x1_0000_0000

  /** A sealed arena; `id` is the identity of its buffer. */
  datatype StringArena = StringArena(id: nat, buf: string, index: map<string, nat>) {
    /** Offset and length of a registered string; `None` is the panic "arena missing string". */
    function OffsetLen(s: string): Option<(nat, nat)> {
      if s == "" then Some((0, 0)) else if s in index then Some((index[s], |s| % LIMIT)) else None
    }

    /** The text at an offset; `None` is a slice out of range. */
    function StrAt(at: (nat, nat)): Option<string> {
      if at.1 == 0 then Some("") else if at.0 + at.1 <= |buf| then Some(buf[at.0..at.0 + at.1]) else None
    }
  }

  /** `s` lies at `off`. */
  predicate Located(buf: string, off: nat, s: string) {
    off + |s| <= |buf| && buf[off..off + |s|] == s
  }

  /** As long as the buffer is below the limit, every entry of the index is where it says. */
  ghost predicate Faithful(buf: string, index: map<string, nat>) {
    "" !in index && (|buf| < LIMIT ==> forall s :: s in index ==> Located(buf, index[s], s))
  }

  lemma {:induction false} RegisterKeeps(buf: string, index: map<string, nat>, s: string)
    requires Faithful(buf, index) && s != "" && s !in index
    ensures Faithful(buf + s, index[s := |buf| % LIMIT])
  {
  }

  /** A registered string is read back from its offset, given a buffer below the limit. */
  lemma {:induction false} RoundTrip(arena: StringArena, s: string)
    requires Faithful(arena.buf, arena.index) && (s == "" || s in arena.index) && |arena.buf| < LIMIT
    ensures arena.OffsetLen(s).Some? && arena.StrAt(arena.OffsetLen(s).value) == Some(s)
  {
  }

  class StringArenaBuilder {
    var buf: string
    var index: map<string, nat>

    constructor ()
      ensures buf == "" && index == map[] && Faithful(buf, index)
    {
      buf, index := "", map[];
    }

    /** Appends a new string; empty and known strings are no-ops. */
    method Register(s: string)
      requires Faithful(buf, index)
      modifies this
      ensures Faithful(buf, index) && index.Keys == old(index).Keys + ({s} - {""})
      ensures |buf| <= old(|buf|) + |s|
    {
      if s == "" || s in index {
        return;
      }
      RegisterKeeps(buf, index, s);
      index := index[s := |buf| % LIMIT];
      buf := buf + s;
    }

    method RegisterAll(strings: seq<string>)
      requires Faithful(buf, index)
      modifies this
      ensures Faithful(buf, index) && index.Keys == old(index).Keys + (Members(strings) - {""})
      ensures |buf| <= old(|buf|) + TotalLength(strings)
    {
      for i := 0 to |strings|
        invariant Faithful(buf, index) && index.Keys == old(index).Keys + (Members(strings[..i]) - {""})
        invariant |buf| <= old(|buf|) + TotalLength(strings[..i])
      {
        TakeOneMore(strings, i);
        Register(strings[i]);
      }
      assert strings[..|strings|] == strings;
    }
  }

  function Members(strings: seq<string>): set<string> {
    set s | s in strings
  }

  function TotalLength(strings: seq<string>): nat {
    if strings == [] then 0 else TotalLength(strings[..|strings| - 1]) + |strings[|strings| - 1]|
  }

  /** A shared string: its text, and where it lies if it is a slice of some arena's buffer. */
  datatype Shared = Shared(text: string, place: Option<(nat, (nat, nat))>)

  /** A slice of this arena's buffer reads as the string's text. */
  ghost predicate Consistent(arena: StringArena, s: Shared) {
    s.place.Some? && s.place.value.0 == arena.id ==> arena.StrAt(s.place.value.1) == Some(s.text)
  }

  /** The offset without a lookup, when the string already slices this buffer. */
  function Dedicated(arena: StringArena, s: Shared): Option<(nat, nat)> {
    if s.place.Some? && s.place.value.0 == arena.id then Some(s.place.value.1) else None
  }

  function Texts(xs: seq<Shared>): (ts: seq<string>)
    ensures |ts| == |xs| && forall i :: 0 <= i < |ts| ==> ts[i] == xs[i].text
  {
    seq(|xs|, i requires 0 <= i < |xs| => xs[i].text)
  }

  /** The arena knows every string of the list, and reads slices of itself correctly. */
  ghost predicate Covers(arena: StringArena, xs: seq<Shared>) {
    Faithful(arena.buf, arena.index) && forall x :: x in xs ==> Consistent(arena, x) && (x.text == "" || x.text in arena.index)
  }

  /** The offsets read back as the texts. */
  ghost predicate ReadBack(arena: StringArena, offs: seq<(nat, nat)>, xs: seq<Shared>) {
    |offs| == |xs| && forall i :: 0 <= i < |offs| ==> arena.StrAt(offs[i]) == Some(xs[i].text)
  }

  /** The fast path: all offsets without a single lookup, or none. */
  method DedicatedOffsets(arena: StringArena, xs: seq<Shared>) returns (fast: bool, offs: seq<(nat, nat)>)
    requires Covers(arena, xs)
    ensures fast ==> ReadBack(arena, offs, xs)
  {
    offs := [];
    for i := 0 to |xs|
      invariant |offs| == i && forall k :: 0 <= k < i ==> arena.StrAt(offs[k]) == Some(xs[k].text)
    {
      var off := Dedicated(arena, xs[i]);
      if off.None? {
        return false, offs;
      }
      assert xs[i] in xs;
      offs := offs + [off.value];
    }
    fast := true;
  }

  /** The slow path: every offset by lookup; `ok` is false when a lookup panics. */
  method LookupOffsets(arena: StringArena, xs: seq<Shared>) returns (ok: bool, offs: seq<(nat, nat)>)
    requires Covers(arena, xs)
    ensures ok && |offs| == |xs| && (|arena.buf| < LIMIT ==> ReadBack(arena, offs, xs))
  {
    offs := [];
    for i := 0 to |xs|
      invariant |offs| == i
      invariant |arena.buf| < LIMIT ==> forall k :: 0 <= k < i ==> arena.StrAt(offs[k]) == Some(xs[k].text)
    {
      assert xs[i] in xs;
      if |arena.buf| < LIMIT {
        RoundTrip(arena, xs[i].text);
      }
      var off := arena.OffsetLen(xs[i].text);
      if off.None? {
        return false, offs;
      }
      offs := offs + [off.value];
    }
    ok := true;
  }

  function NameOf(names: seq<string>, id: nat): string {
    if id < |names| then names[id] else ""
  }

  const EMPTY := Shared("", None)

  function Loose(text: string): Shared {
    Shared(text, None)
  }

  /** The shared string at an offset of the arena. */
  function SharedAt(arena: StringArena, at: (nat, nat)): Shared {
    if at.1 == 0 then EMPTY else Shared(arena.StrAt(at).GetOr(""), Some((arena.id, at)))
  }

  /** Names drawn from `olds`, with the empty name in slot 0. */
  ghost predicate NamesFrom(names: seq<Shared>, olds: seq<string>) {
    names != [] && names[0].text == "" && forall n :: n in names ==> n.text in olds
  }

  /** Objects and transitions refer to scripts and objects that are there. */
  ghost predicate IdsInRange(scriptIds: seq<nat>, transitions: seq<(nat, nat)>, objects: nat, scripts: nat) {
    && (forall id :: id in scriptIds ==> 0 < id <= scripts)
    && (forall t :: t in transitions ==> t.0 < objects && 0 < t.1 <= scripts)
  }

  lemma {:induction false} OneMoreObject(scriptIds: seq<nat>, transitions: seq<(nat, nat)>, objects: nat, scripts: nat)
    requires IdsInRange(scriptIds, transitions, objects, scripts)
    ensures IdsInRange(scriptIds + [scripts + 1], transitions, objects + 1, scripts + 1)
  {
  }

  /** Database and name of some schema, among triples of database, name and normalized name. */
  predicate HasSchema(schemas: seq<Shared>, db: string, name: string) {
    exists k :: 0 <= k < |schemas| / 3 && schemas[3 * k].text == db && schemas[3 * k + 1].text == name
  }

  /** Which schemas are listed: the same name in two databases is two schemas. */
  function SchemaPairs(schemas: seq<Shared>): (ps: seq<(string, string)>)
    ensures |ps| == |schemas| / 3
  {
    seq(|schemas| / 3, k requires 0 <= k < |schemas| / 3 => (schemas[3 * k].text, schemas[3 * k + 1].text))
  }

  /** A schema is listed once, however many of its objects are scanned, and for every database that has it. */
  lemma {:induction false} SchemaNotedOnce(schemas: seq<Shared>, db: string, name: string, normalized: string)
    requires |schemas| % 3 == 0 && Distinct(SchemaPairs(schemas))
    ensures var after := Noted(schemas, db, name, normalized);
            && |after| % 3 == 0 && Distinct(SchemaPairs(after))
            && forall p :: p in SchemaPairs(after) <==> p in SchemaPairs(schemas) || p == (db, name)
  {
    var before, after := SchemaPairs(schemas), SchemaPairs(Noted(schemas, db, name, normalized));
    if HasSchema(schemas, db, name) {
      var k :| 0 <= k < |schemas| / 3 && schemas[3 * k].text == db && schemas[3 * k + 1].text == name;
      assert before[k] == (db, name);
    } else {
      assert after == before + [(db, name)];
    }
  }

  function Noted(schemas: seq<Shared>, db: string, name: string, normalized: string): seq<Shared> {
    if HasSchema(schemas, db, name) then schemas else schemas + [Loose(db), Loose(name), Loose(normalized)]
  }

  class WorkspaceStrings {
    /** Database names by id, and per object its database, key and script. */
    var databases: seq<Shared>
    var dbIds: seq<nat>
    var keys: seq<Shared>
    var scriptIds: seq<nat>
    // Scripts.
    var paths: seq<Shared>
    var absolutes: seq<Shared>
    /** Per transition its object (0-based), its script (1-based) and its ordinal. */
    var transitions: seq<(nat, nat)>
    var ordinals: seq<Shared>
    /** Database, name and normalized name of every schema. */
    var schemas: seq<Shared>
    /** Commit hashes, authors and dates, when they were read. */
    var git: seq<Shared>
    // Offsets once interned.
    var keyOffs: seq<(nat, nat)>
    var pathOffs: seq<(nat, nat)>
    var absOffs: seq<(nat, nat)>
    var ordOffs: seq<(nat, nat)>

    /** The empty name has id 0, and no two names differ in case only. */
    ghost predicate Named()
      reads this`databases
    {
      databases != [] && databases[0].text == "" && CaseDistinct(Texts(databases))
    }

    ghost predicate Valid()
      reads this
    {
      && |dbIds| == |keys| == |scriptIds| && |paths| == |absolutes| && |transitions| == |ordinals| && Named()
      && IdsInRange(scriptIds, transitions, |keys|, |paths|)
    }

    /** An empty workspace. */
    constructor ()
      ensures Valid() && databases == [EMPTY] && dbIds == [] && keys == [] && scriptIds == [] && paths == [] && absolutes == []
      ensures transitions == [] && ordinals == [] && schemas == [] && git == []
    {
      databases, dbIds, keys, scriptIds, paths, absolutes := [EMPTY], [], [], [], [], [];
      transitions, ordinals, schemas, git := [], [], [], [];
      keyOffs, pathOffs, absOffs, ordOffs := [], [], [], [];
    }

    function DatabaseAt(i: nat): Shared
      requires i < |dbIds|
      reads this
    {
      if dbIds[i] < |databases| then databases[dbIds[i]] else EMPTY
    }

    function DatabaseStrings(): (ds: seq<Shared>)
      reads this
      ensures |ds| == |dbIds| && forall i :: 0 <= i < |ds| ==> ds[i] == DatabaseAt(i)
    {
      seq(|dbIds|, i requires 0 <= i < |dbIds| reads this => DatabaseAt(i))
    }

    /** The name of each object's database. */
    function Names(): (ns: seq<string>)
      reads this
      ensures |ns| == |dbIds| && forall i :: 0 <= i < |ns| ==> ns[i] == DatabaseAt(i).text
    {
      Texts(DatabaseStrings())
    }

    /** Registers a database name, folding ASCII case: the first spelling wins. */
    method InternDatabase(name: Shared) returns (id: nat)
      requires Named()
      modifies this`databases
      ensures Named() && id < |databases| && Folded(databases[id].text) == Folded(name.text)
      ensures databases == old(databases) || databases == old(databases) + [name]
    {
      if name.text == "" {
        return 0;
      }
      id := Find(Texts(databases), name.text);
      if id == |databases| {
        databases := databases + [name];
      }
    }

    method NoteSchema(db: string, schema: string, normalized: string)
      modifies this`schemas
      ensures schemas == Noted(old(schemas), db, schema, normalized)
    {
      if !HasSchema(schemas, db, schema) {
        schemas := schemas + [Loose(db), Loose(schema), Loose(normalized)];
      }
    }

    /** One scanned file: its script, its database, its schema unless known, and the object itself. */
    method InsertParsedObject(db: string, schema: string, normalized: string, key: string, path: string, absolute: string)
      returns (id: nat)
      requires Valid()
      modifies this`databases, this`dbIds, this`keys, this`scriptIds, this`paths, this`absolutes, this`schemas
      ensures Valid()
      ensures keys == old(keys) + [Loose(key)] && paths == old(paths) + [Loose(path)] && absolutes == old(absolutes) + [Loose(absolute)]
      ensures schemas == Noted(old(schemas), db, schema, normalized)
      ensures scriptIds == old(scriptIds) + [|paths|]
      ensures databases == old(databases) || databases == old(databases) + [Loose(db)]
      ensures id < |databases| && dbIds == old(dbIds) + [id] && Folded(databases[id].text) == Folded(db)
    {
      NoteSchema(db, schema, normalized);
      id := InternDatabase(Loose(db));
      PushObject(id, key, path, absolute);
    }

    /** The script, and the object that refers to it. */
    method PushObject(id: nat, key: string, path: string, absolute: string)
      requires Valid()
      modifies this`dbIds, this`keys, this`scriptIds, this`paths, this`absolutes
      ensures Valid()
      ensures keys == old(keys) + [Loose(key)] && paths == old(paths) + [Loose(path)] && absolutes == old(absolutes) + [Loose(absolute)]
      ensures scriptIds == old(scriptIds) + [|paths|] && dbIds == old(dbIds) + [id]
    {
      OneMoreObject(scriptIds, transitions, |keys|, |paths|);
      paths, absolutes := paths + [Loose(path)], absolutes + [Loose(absolute)];
      keys, dbIds, scriptIds := keys + [Loose(key)], dbIds + [id], scriptIds + [|paths|];
    }

    /** Rebuilds the database names in object order; read back correctly, each object keeps the name of its database. */
    method RefillDatabases(arena: StringArena, offs: seq<(nat, nat)>, ghost names: seq<string>, ghost olds: seq<string>, ghost readable: bool)
      requires |offs| == |dbIds| == |names| && CaseDistinct(olds) && "" in olds
      requires readable ==> forall i :: 0 <= i < |names| ==> names[i] in olds && SharedAt(arena, offs[i]).text == names[i]
      modifies this`databases, this`dbIds
      ensures |dbIds| == |offs| && Named()
      ensures readable ==> NamesFrom(databases, olds) && forall i :: 0 <= i < |dbIds| ==> DatabaseAt(i).text == names[i]
    {
      databases := [EMPTY];
      for i := 0 to |offs|
        invariant |dbIds| == |offs| && Named()
        invariant readable ==> NamesFrom(databases, olds)
        invariant readable ==> forall k :: 0 <= k < i ==> dbIds[k] < |databases| && databases[dbIds[k]].text == names[k]
      {
        var id := InternDatabase(SharedAt(arena, offs[i]));
        if readable {
          SameFoldSameName(olds, databases[id].text, names[i]);
        }
        dbIds := dbIds[i := id];
      }
    }

    /** Keys and database names: by slices if all are slices of this arena, else by lookup. */
    method ApplyObjectEntries(arena: StringArena) returns (ok: bool)
      requires Valid() && Covers(arena, keys) && Covers(arena, DatabaseStrings())
      modifies this`databases, this`dbIds, this`keyOffs
      ensures ok && Valid()
      ensures |arena.buf| < LIMIT ==>
                ReadBack(arena, keyOffs, keys) && Names() == old(Names())
    {
      var dbs := DatabaseStrings();
      var fast, offs := DedicatedOffsets(arena, keys);
      var fastDb, dbOffs := DedicatedOffsets(arena, dbs);
      if !fast || !fastDb {
        ok, offs := LookupOffsets(arena, keys);
        ok, dbOffs := LookupOffsets(arena, dbs);
      }
      keyOffs := offs;
      ok := true;
      ghost var olds := Texts(databases);
      assert olds[0] == "";
      if |arena.buf| < LIMIT {
        NamesReadBack(arena, dbOffs, dbs, olds, dbIds, databases);
      }
      RefillDatabases(arena, dbOffs, Texts(dbs), olds, |arena.buf| < LIMIT);
    }

    /** Script paths, the same two ways. */
    method ApplyScripts(arena: StringArena) returns (ok: bool)
      requires Covers(arena, paths) && Covers(arena, absolutes)
      modifies this`pathOffs, this`absOffs
      ensures ok && (|arena.buf| < LIMIT ==> ReadBack(arena, pathOffs, paths) && ReadBack(arena, absOffs, absolutes))
    {
      var fast, offs := DedicatedOffsets(arena, paths);
      var fastAbs, offsAbs := DedicatedOffsets(arena, absolutes);
      if !fast || !fastAbs {
        ok, offs := LookupOffsets(arena, paths);
        ok, offsAbs := LookupOffsets(arena, absolutes);
      }
      ok := true;
      pathOffs, absOffs := offs, offsAbs;
    }

    /** Ordinals, each by slice or by lookup. */
    method ApplyTransitions(arena: StringArena) returns (ok: bool)
      requires Covers(arena, ordinals)
      modifies this`ordOffs
      ensures ok && (|arena.buf| < LIMIT ==> ReadBack(arena, ordOffs, ordinals))
    {
      ordOffs := [];
      for i := 0 to |ordinals|
        invariant |ordOffs| == i
        invariant |arena.buf| < LIMIT ==> forall k :: 0 <= k < i ==> arena.StrAt(ordOffs[k]) == Some(ordinals[k].text)
      {
        assert ordinals[i] in ordinals;
        if |arena.buf| < LIMIT {
          RoundTrip(arena, ordinals[i].text);
        }
        var off := Dedicated(arena, ordinals[i]);
        if off.None? {
          off := arena.OffsetLen(ordinals[i].text);
        }
        if off.None? {
          return false;
        }
        ordOffs := ordOffs + [off.value];
      }
      ok := true;
    }

    /** Schema strings become slices of the arena. */
    method ApplySchemas(arena: StringArena) returns (ok: bool)
      requires Covers(arena, schemas)
      modifies this`schemas
      ensures ok && (|arena.buf| < LIMIT ==> Texts(schemas) == Texts(old(schemas)))
    {
      for i := 0 to |schemas|
        invariant |schemas| == old(|schemas|) && forall k :: i <= k < |schemas| ==> schemas[k] == old(schemas)[k]
        invariant |arena.buf| < LIMIT ==> forall k :: 0 <= k < i ==> schemas[k].text == old(schemas)[k].text
      {
        assert schemas[i] in old(schemas);
        if |arena.buf| < LIMIT {
          RoundTrip(arena, schemas[i].text);
        }
        var off := Dedicated(arena, schemas[i]);
        if off.None? {
          off := arena.OffsetLen(schemas[i].text);
        }
        if off.None? {
          return false;
        }
        schemas := schemas[i := SharedAt(arena, off.value)];
      }
      ok := true;
    }

    /** The arena holds every string of the workspace. */
    ghost predicate CoveredBy(arena: StringArena)
      reads this
    {
      && Covers(arena, keys) && Covers(arena, DatabaseStrings()) && Covers(arena, paths) && Covers(arena, absolutes)
      && Covers(arena, ordinals) && Covers(arena, schemas)
    }

    /** Attaches an arena. No string changes, on the fast and on the slow path alike, and nothing panics. */
    method InstallLayoutArena(arena: StringArena) returns (ok: bool)
      requires Valid() && CoveredBy(arena)
      modifies this`databases, this`dbIds, this`keyOffs, this`pathOffs, this`absOffs, this`ordOffs, this`schemas
      ensures ok && Valid()
      ensures |arena.buf| < LIMIT ==>
                && ReadBack(arena, keyOffs, keys) && ReadBack(arena, pathOffs, paths) && ReadBack(arena, absOffs, absolutes)
                && ReadBack(arena, ordOffs, ordinals) && Texts(schemas) == Texts(old(schemas))
                && Names() == old(Names())
    {
      ok := ApplyObjectEntries(arena);
      if ok {
        ok := ApplyScripts(arena);
      }
      if ok {
        ok := ApplyTransitions(arena);
      }
      if ok {
        ok := ApplySchemas(arena);
      }
    }

    /** Every string of the workspace. */
    function All(): seq<Shared>
      reads this
    {
      keys + DatabaseStrings() + paths + absolutes + ordinals + schemas + git
    }

    function Strings(): set<string>
      reads this
    {
      Members(Texts(All()))
    }

    /** Room for every string, even if none were shared. */
    function Size(): nat
      reads this
    {
      TotalLength(Texts(All()))
    }

    /** Registers every string of the workspace. */
    method RegisterWorkspaceStrings(b: StringArenaBuilder)
      requires Faithful(b.buf, b.index)
      modifies b
      ensures Faithful(b.buf, b.index) && b.index.Keys == old(b.index).Keys + (Strings() - {""})
      ensures |b.buf| <= old(|b.buf|) + Size()
    {
      b.RegisterAll(Texts(All()));
    }

    /** No string slices the buffer `id`. */
    ghost predicate Foreign(id: nat)
      reads this
    {
      forall x :: x in All() && x.place.Some? ==> x.place.value.0 != id
    }

    lemma {:induction false} AllCovered(arena: StringArena)
      requires Faithful(arena.buf, arena.index) && Foreign(arena.id) && Strings() - {""} <= arena.index.Keys
      ensures CoveredBy(arena)
    {
      forall x | x in All()
        ensures Consistent(arena, x) && (x.text == "" || x.text in arena.index)
      {
        var i :| 0 <= i < |All()| && All()[i] == x;
        assert Texts(All())[i] in Strings();
      }
    }

    /** Interns the whole workspace into a new arena, which then holds its strings and no others. */
    method InternWorkspaceStrings(id: nat) returns (ok: bool, arena: StringArena)
      requires Valid() && Foreign(id)
      modifies this`databases, this`dbIds, this`keyOffs, this`pathOffs, this`absOffs, this`ordOffs, this`schemas
      ensures ok && Valid() && Faithful(arena.buf, arena.index)
      ensures arena.index.Keys == old(Strings()) - {""} && |arena.buf| <= old(Size())
      ensures |arena.buf| < LIMIT ==>
                && ReadBack(arena, keyOffs, keys) && ReadBack(arena, pathOffs, paths) && ReadBack(arena, absOffs, absolutes)
                && ReadBack(arena, ordOffs, ordinals) && Texts(schemas) == Texts(old(schemas))
                && Names() == old(Names())
    {
      var builder := new StringArenaBuilder();
      RegisterWorkspaceStrings(builder);
      arena := StringArena(id, builder.buf, builder.index);
      AllCovered(arena);
      ok := InstallLayoutArena(arena);
    }

    /** The paths of all objects, and of all transitions, as the plan shows them. */
    function ObjectPaths(): seq<string>
      requires Valid()
      reads this
    {
      ObjectPathsOf(Names(), scriptIds, paths)
    }

    function TransitionPaths(): seq<string>
      requires Valid()
      reads this
    {
      TransitionPathsOf(Names(), transitions, paths)
    }

    /** Looks every path up in the arena; a path that is not there panics. */
    method RebuildPathCaches(arena: StringArena) returns (ok: bool, objectPaths: seq<(nat, nat)>, transitionPaths: seq<(nat, nat)>)
      requires Valid() && Faithful(arena.buf, arena.index)
      ensures ok <==> AllKnown(arena, TransitionPaths()) && AllKnown(arena, ObjectPaths())
      ensures ok && |arena.buf| < LIMIT ==> Cached(arena, transitionPaths, TransitionPaths()) && Cached(arena, objectPaths, ObjectPaths())
    {
      objectPaths := [];
      ok, transitionPaths := LookupPaths(arena, TransitionPaths());
      if ok {
        ok, objectPaths := LookupPaths(arena, ObjectPaths());
      }
    }

    /** Every path, with its database's directory in front, is one of the workspace's own strings. */
    ghost predicate PathsAreStrings()
      requires Valid()
      reads this
    {
      forall p :: p in TransitionPaths() || p in ObjectPaths() ==> p == "" || p in Strings()
    }

    /**
     The end of a scan: intern, then rebuild the path caches. It panics exactly if
     some path, once its database's directory is in front, is no string of the
     workspace; otherwise every cached offset reads back as its path.
     */
    method InternAndCache(id: nat) returns (ok: bool, arena: StringArena, objectPaths: seq<(nat, nat)>, transitionPaths: seq<(nat, nat)>)
      requires Valid() && Foreign(id)
      modifies this`databases, this`dbIds, this`keyOffs, this`pathOffs, this`absOffs, this`ordOffs, this`schemas
      ensures old(Size()) < LIMIT ==> (ok <==> old(PathsAreStrings()))
      ensures ok && old(Size()) < LIMIT ==>
                Cached(arena, transitionPaths, old(TransitionPaths())) && Cached(arena, objectPaths, old(ObjectPaths()))
    {
      ok, arena := InternWorkspaceStrings(id);
      ok, objectPaths, transitionPaths := RebuildPathCaches(arena);
    }

    /** The path of the object's own script, and of the transition's. */
    ghost function OwnPath(i: int): string
      requires Valid() && 0 <= i < |scriptIds|
      reads this
    {
      assert scriptIds[i] in scriptIds;
      paths[scriptIds[i] - 1].text
    }

    ghost function OwnTransitionPath(t: int): string
      requires Valid() && 0 <= t < |transitions|
      reads this
    {
      assert transitions[t] in transitions;
      paths[transitions[t].1 - 1].text
    }

    /** Every script lies below the directory its object's database is known by, and no transition path holds a backslash. */
    ghost predicate BelowTheirDirectories()
      requires Valid()
      reads this
    {
      && (forall i :: 0 <= i < |scriptIds| ==> Below(Names()[i], OwnPath(i)))
      && (forall t :: 0 <= t < |transitions| ==> Below(NameOf(Names(), transitions[t].0), OwnTransitionPath(t)) && '\\' !in OwnTransitionPath(t))
    }

    lemma {:induction false} PathIsString(k: nat)
      requires k < |paths|
      ensures paths[k].text in Strings()
    {
      var n := |keys| + |DatabaseStrings()|;
      assert All()[n + k] == paths[k];
      assert Texts(All())[n + k] == paths[k].text;
    }

    lemma {:induction false} ShortStrings(k: nat)
      requires Short(keys, k) && Short(DatabaseStrings(), k) && Short(paths, k) && Short(absolutes, k)
      requires Short(ordinals, k) && Short(schemas, k) && Short(git, k)
      ensures (forall s :: s in Strings() ==> |s| <= k) && Size() <= |All()| * k && forall id :: Foreign(id)
    {
      LengthBound(Texts(All()), k);
    }

    /** Then every path that is shown is the path of the object's own script, or the transition's. */
    lemma {:induction false} OwnPathsAreShown()
      requires Valid() && BelowTheirDirectories()
      ensures forall i :: 0 <= i < |scriptIds| ==> ObjectPaths()[i] == OwnPath(i)
      ensures forall t :: 0 <= t < |transitions| ==> TransitionPaths()[t] == OwnTransitionPath(t)
    {
      forall i | 0 <= i < |scriptIds|
        ensures ObjectPaths()[i] == OwnPath(i)
      {
        assert scriptIds[i] in scriptIds;
      }
      forall t | 0 <= t < |transitions|
        ensures TransitionPaths()[t] == OwnTransitionPath(t)
      {
        assert transitions[t] in transitions;
        SlashedIsSame(OwnTransitionPath(t));
      }
    }

    lemma {:induction false} OwnPathIsString(i: nat)
      requires Valid() && i < |scriptIds|
      ensures OwnPath(i) in Strings()
    {
      assert scriptIds[i] in scriptIds;
      PathIsString(scriptIds[i] - 1);
    }

    lemma {:induction false} OwnTransitionPathIsString(t: nat)
      requires Valid() && t < |transitions|
      ensures OwnTransitionPath(t) in Strings()
    {
      assert transitions[t] in transitions;
      PathIsString(transitions[t].1 - 1);
    }

    /** A sufficient condition a caller can see: then the scan does not panic. */
    lemma {:induction false} PrefixedPathsAreStrings()
      requires Valid() && BelowTheirDirectories()
      ensures PathsAreStrings()
    {
      OwnPathsAreShown();
      forall p | p in ObjectPaths()
        ensures p in Strings()
      {
        var i :| 0 <= i < |scriptIds| && p == ObjectPaths()[i];
        OwnPathIsString(i);
      }
      forall p | p in TransitionPaths()
        ensures p in Strings()
      {
        var t :| 0 <= t < |transitions| && p == TransitionPaths()[t];
        OwnTransitionPathIsString(t);
      }
    }
  }

  /** The path of a 1-based script id. */
  function PathAt(paths: seq<Shared>, script: nat): string {
    if 0 < script <= |paths| then paths[script - 1].text else ""
  }

  function ObjectPathsOf(names: seq<string>, scriptIds: seq<nat>, paths: seq<Shared>): (ps: seq<string>)
    requires |names| == |scriptIds|
    ensures |ps| == |scriptIds| && forall i :: 0 <= i < |ps| ==> ps[i] == ObjectPath(names[i], PathAt(paths, scriptIds[i]))
  {
    seq(|scriptIds|, i requires 0 <= i < |scriptIds| => ObjectPath(names[i], PathAt(paths, scriptIds[i])))
  }

  function TransitionPathsOf(names: seq<string>, transitions: seq<(nat, nat)>, paths: seq<Shared>): (ps: seq<string>)
    ensures |ps| == |transitions|
    ensures forall t :: 0 <= t < |ps| ==> ps[t] == ObjectPath(NameOf(names, transitions[t].0), Slashed(PathAt(paths, transitions[t].1)))
  {
    seq(|transitions|, t requires 0 <= t < |transitions| =>
      ObjectPath(NameOf(names, transitions[t].0), Slashed(PathAt(paths, transitions[t].1))))
  }

  lemma {:induction false} SlashedIsSame(path: string)
    requires '\\' !in path
    ensures Slashed(path) == path
  {
  }

  ghost predicate AllKnown(arena: StringArena, paths: seq<string>) {
    forall p :: p in paths ==> Known(arena, p)
  }

  /** The offsets read back as the paths. */
  ghost predicate Cached(arena: StringArena, offs: seq<(nat, nat)>, paths: seq<string>) {
    |offs| == |paths| && forall i :: 0 <= i < |offs| ==> arena.StrAt(offs[i]) == Some(paths[i])
  }

  method LookupPaths(arena: StringArena, paths: seq<string>) returns (ok: bool, offs: seq<(nat, nat)>)
    requires Faithful(arena.buf, arena.index)
    ensures ok <==> AllKnown(arena, paths)
    ensures ok && |arena.buf| < LIMIT ==> Cached(arena, offs, paths)
  {
    offs := [];
    for i := 0 to |paths|
      invariant |offs| == i && forall k :: 0 <= k < i ==> arena.OffsetLen(paths[k]) == Some(offs[k])
    {
      var off := arena.OffsetLen(paths[i]);
      if off.None? {
        assert paths[i] in paths && !Known(arena, paths[i]);
        return false, offs;
      }
      offs := offs + [off.value];
    }
    ok := true;
    if |arena.buf| < LIMIT {
      forall i | 0 <= i < |paths| ensures arena.StrAt(offs[i]) == Some(paths[i]) { RoundTrip(arena, paths[i]); }
    }
  }

  predicate Known(arena: StringArena, s: string) {
    s == "" || s in arena.index
  }

  /** The path lies below the database's directory. */
  predicate Below(db: string, path: string) {
    db == "" || db + "/" <= path
  }

  function TrimSlashes(path: string): string {
    if path != "" && path[0] == '/' then TrimSlashes(path[1..]) else path
  }

  /** Adds the database's directory unless it is there. */
  function ObjectPath(db: string, path: string): string {
    if Below(db, path) then path else db + "/" + TrimSlashes(path)
  }

  /** The shown path lies below the database's directory; what follows is the path itself without leading slashes. */
  lemma {:induction false} ObjectPathMeans(db: string, path: string) returns (n: nat)
    ensures n <= |path| && (forall k :: 0 <= k < n ==> path[k] == '/') && (n < |path| ==> path[n] != '/')
    ensures Below(db, ObjectPath(db, path))
    ensures ObjectPath(db, path) == if db == "" || db + "/" <= path then path else db + "/" + path[n..]
  {
    n := Slashes(path);
    assert (db + "/") + path[n..] == db + "/" + path[n..];
  }

  lemma {:induction false} Slashes(path: string) returns (n: nat)
    ensures n <= |path| && (forall k :: 0 <= k < n ==> path[k] == '/') && (n < |path| ==> path[n] != '/')
    ensures TrimSlashes(path) == path[n..]
  {
    n := 0;
    if path != "" && path[0] == '/' {
      var m := Slashes(path[1..]);
      n := m + 1;
      assert forall k :: 1 <= k < n ==> path[k] == path[1..][k - 1];
    }
  }

  function Slashed(path: string): string {
    seq(|path|, i requires 0 <= i < |path| => if path[i] == '\\' then '/' else path[i])
  }

  /** A script in a directory that differs from the database's first spelling in case gets a second prefix. */
  lemma {:induction false} VariantGetsSecondPrefix(name: string, directory: string, path: string)
    requires Folded(name) == Folded(directory) && name != directory && name != ""
    requires directory + "/" <= path && path[0] != '/'
    ensures ObjectPath(name, path) == name + "/" + path
  {
  }

  lemma {:induction false} LengthBound(strings: seq<string>, k: nat)
    requires forall s :: s in strings ==> |s| <= k
    ensures TotalLength(strings) <= |strings| * k
  {
    if strings != [] {
      LengthBound(strings[..|strings| - 1], k);
    }
  }

  /** Not interned yet, and at most `k` long. */
  ghost predicate Short(xs: seq<Shared>, k: nat) {
    forall x :: x in xs ==> x.place.None? && |x.text| <= k
  }

  lemma {:induction false} VariantInstance()
    ensures Folded("Sales") == Folded("sales")
    ensures ObjectPath("Sales", "sales/dbo/tables/t.sql") == "Sales" + "/" + "sales/dbo/tables/t.sql"
  {
    VariantGetsSecondPrefix("Sales", "sales", "sales/dbo/tables/t.sql");
  }

  /** What the scan of two directories, `Sales` and `sales`, has recorded: the first spelling names the database of both. */
  ghost predicate VariantTree(ws: WorkspaceStrings)
    reads ws
  {
    && ws.Names() == ["Sales", "Sales"] && ws.scriptIds == [1, 2] && ws.transitions == [] && ws.ordinals == [] && ws.git == []
    && ws.keys == [Loose("dbo/tables/a"), Loose("dbo/tables/t")]
    && ws.paths == [Loose("Sales/dbo/tables/a.sql"), Loose("sales/dbo/tables/t.sql")]
    && ws.absolutes == [Loose("/r/Sales/dbo/tables/a.sql"), Loose("/r/sales/dbo/tables/t.sql")]
    && Short(ws.schemas, 5) && |ws.schemas| <= 6 && Short(ws.databases, 5)
  }

  method ScanVariantTree() returns (ws: WorkspaceStrings)
    ensures fresh(ws) && ws.Valid() && VariantTree(ws)
  {
    ws := new WorkspaceStrings();
    var first := ws.InsertParsedObject("Sales", "dbo", "dbo", "dbo/tables/a", "Sales/dbo/tables/a.sql", "/r/Sales/dbo/tables/a.sql");
    var second := ws.InsertParsedObject("sales", "dbo", "dbo", "dbo/tables/t", "sales/dbo/tables/t.sql", "/r/sales/dbo/tables/t.sql");
    FirstSpelling(ws, first, second);
  }

  lemma {:induction false} FirstSpelling(ws: WorkspaceStrings, first: nat, second: nat)
    requires ws.Valid() && ws.dbIds == [first, second] && first < |ws.databases| && second < |ws.databases|
    requires |ws.databases| > 1 && ws.databases[1] == Loose("Sales")
    requires Folded(ws.databases[first].text) == Folded("Sales") && Folded(ws.databases[second].text) == Folded("sales")
    ensures ws.Names() == ["Sales", "Sales"]
  {
  }

  lemma {:induction false} VariantPathIsStrange(ws: WorkspaceStrings)
    requires ws.Valid() && VariantTree(ws)
    ensures !ws.PathsAreStrings() && ws.Size() < LIMIT && ws.Foreign(0)
  {
    ws.ShortStrings(25);
    VariantInstance();
    assert ws.ObjectPaths()[1] == "Sales" + "/" + "sales/dbo/tables/t.sql";
    assert ws.ObjectPaths()[1] in ws.ObjectPaths();
  }

  /** Two directories that differ in case only: the scan of such a tree panics. */
  method CaseVariantPanics() returns (ok: bool)
    ensures !ok
  {
    var ws := ScanVariantTree();
    VariantPathIsStrange(ws);
    var arena, objectPaths, transitionPaths;
    ok, arena, objectPaths, transitionPaths := ws.InternAndCache(0);
  }

  /** The database names of the objects, read back through their offsets, are names of the workspace. */
  lemma {:induction false} NamesReadBack(arena: StringArena, offs: seq<(nat, nat)>, dbs: seq<Shared>, olds: seq<string>, dbIds: seq<nat>, databases: seq<Shared>)
    requires ReadBack(arena, offs, dbs) && olds == Texts(databases) && databases != [] && databases[0].text == ""
    requires |dbs| == |dbIds| && forall i :: 0 <= i < |dbs| ==> dbs[i] == if dbIds[i] < |databases| then databases[dbIds[i]] else EMPTY
    ensures "" in olds
    ensures forall i :: 0 <= i < |dbs| ==> dbs[i].text in olds && SharedAt(arena, offs[i]).text == dbs[i].text
  {
  }
}
