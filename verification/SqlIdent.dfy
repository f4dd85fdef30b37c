/** Names on paths and in statements: what they must look like, and how they are quoted. */
module SqlIdent {
  import opened Prelude

  predicate Separator(c: char) {
    c == '/' || c == '\\'
  }

  /** A single directory or file name. */
  predicate PathComponent(name: string) {
    name != "" && name != "." && name != ".." && forall i :: 0 <= i < |name| ==> !Separator(name[i]) && name[i] != '\0'
  }

  predicate ValidIdentifier(name: string) {
    PathComponent(name) && |name| <= 128
  }

  method ValidatePathComponent(name: string) returns (ok: bool)
    ensures ok <==> PathComponent(name)
  {
    if name == "" {
      return false;
    }
    if name == "." || name == ".." {
      return false;
    }
    for k := 0 to |name|
      invariant forall i :: 0 <= i < k ==> !Separator(name[i]) && name[i] != '\0'
    {
      if name[k] == '/' || name[k] == '\\' || name[k] == '\0' {
        return false;
      }
    }
    return true;
  }

  /** A path cut at its separators. */
  function Components(path: string): (cs: seq<string>)
    ensures cs != []
  {
    if path == "" then [""]
    else
      var cs := Components(path[1..]);
      if Separator(path[0]) then [""] + cs else [[path[0]] + cs[0]] + cs[1..]
  }

  /** Where a walk from `dir` ends: empty and single-dot components stay, two dots go up. */
  function Walk(dir: seq<string>, cs: seq<string>): seq<string> {
    if cs == [] then dir
    else
      var here := Walk(dir, cs[..|cs| - 1]);
      var c := cs[|cs| - 1];
      if c == "" || c == "." then here
      else if c == ".." then (if here == [] then [] else here[..|here| - 1])
      else here + [c]
  }

  ghost predicate Whole(s: string) {
    forall i :: 0 <= i < |s| ==> !Separator(s[i])
  }

  lemma {:induction false} ComponentsAreWhole(path: string)
    ensures forall k :: 0 <= k < |Components(path)| ==> Whole(Components(path)[k])
    ensures Whole(path) ==> Components(path) == [path]
  {
    if path != "" {
      ComponentsAreWhole(path[1..]);
      var cs := Components(path[1..]);
      assert Whole(path) ==> Whole(path[1..]);
      assert !Separator(path[0]) ==> Components(path)[0] == [path[0]] + cs[0];
      assert Whole(path) ==> [path[0]] + path[1..] == path;
    }
  }

  /** What a walk adds below `dir` are components. */
  lemma {:induction false} WalkAddsWhole(dir: seq<string>, cs: seq<string>)
    requires forall k :: 0 <= k < |cs| ==> Whole(cs[k])
    ensures forall k :: |dir| <= k < |Walk(dir, cs)| ==> Whole(Walk(dir, cs)[k])
  {
    if cs != [] {
      WalkAddsWhole(dir, cs[..|cs| - 1]);
    }
  }

  /** The names that pass are exactly those that, joined to any directory, name an entry of that very directory. */
  lemma {:induction false} ComponentMeans(dir: seq<string>, name: string)
    ensures PathComponent(name) <==> Walk(dir, Components(name)) == dir + [name] && '\0' !in name
  {
    ComponentsAreWhole(name);
    if Whole(name) {
      assert Components(name)[..0] == [];
      assert Walk(dir, Components(name)[..0]) == dir;
    } else {
      WalkAddsWhole(dir, Components(name));
      assert (dir + [name])[|dir|] == name;
    }
  }

  /** Every `q` written twice. */
  function Doubled(s: string, q: char): string {
    if s == "" then "" else (if s[0] == q then [q, q] else [s[0]]) + Doubled(s[1..], q)
  }

  function Bracketed(name: string): string {
    "[" + Doubled(name, ']') + "]"
  }

  /** The fixed text around the names. */
  datatype Template = Template(probe: string, guard: string, command: string, end: string)

  const CREATE_SCHEMA := Template("IF SCHEMA_ID(N", ") IS NULL EXEC(", "CREATE SCHEMA ", ")")

  /** The literal that denotes the name, and the command as a literal; in both every quote is doubled. */
  function Filled(t: Template, name: string): string {
    t.probe + "'" + Doubled(name, '\'') + "'" + t.guard + "'" + t.command + Doubled(Bracketed(name), '\'') + "'" + t.end
  }

  function CreateSchemaSql(name: string): string {
    Filled(CREATE_SCHEMA, name)
  }

  method BuildCreateSchemaSql(name: string) returns (sql: Option<string>)
    ensures sql == if ValidIdentifier(name) then Some(CreateSchemaSql(name)) else None
  {
    var ok := ValidatePathComponent(name);
    if !ok || |name| > 128 {
      return None;
    }
    return Some(CreateSchemaSql(name));
  }

  /** Reads up to the closing `q`, which two of them are not; returns what was read and what follows. */
  function ReadQuoted(t: string, q: char): Option<(string, string)>
    decreases |t|
  {
    if t == "" then None
    else if t[0] == q && (|t| == 1 || t[1] != q) then Some(("", t[1..]))
    else
      match ReadQuoted(t[if t[0] == q then 2 else 1..], q)
      case None => None
      case Some((s, rest)) => Some(([t[0]] + s, rest))
  }

  lemma {:induction false} ReadsBack(s: string, q: char, rest: string)
    requires rest == "" || rest[0] != q
    ensures ReadQuoted(Doubled(s, q) + [q] + rest, q) == Some((s, rest))
  {
    var t := Doubled(s, q) + [q] + rest;
    if s == "" {
      assert t == [q] + rest && t[1..] == rest;
    } else {
      var tail := Doubled(s[1..], q) + [q] + rest;
      ReadsBack(s[1..], q, rest);
      assert s == [s[0]] + s[1..];
      if s[0] == q {
        assert t == [q, q] + tail && t[2..] == tail;
      } else {
        assert t == [s[0]] + tail && t[1..] == tail;
      }
    }
  }

  function After(prefix: string, t: string): Option<string> {
    if prefix <= t then Some(t[|prefix|..]) else None
  }

  /** `prefix`, then a quoted text. */
  function ReadAfter(prefix: string, t: string, q: char): Option<(string, string)> {
    match After(prefix, t)
    case None => None
    case Some(rest) => ReadQuoted(rest, q)
  }

  /** The name a statement asks for and the one it creates, as a server reads them. */
  function ReadFilled(t: Template, sql: string): Option<(string, string)> {
    match ReadAfter(t.probe + "'", sql, '\'')
    case None => None
    case Some((probe, rest)) =>
      match ReadAfter(t.guard + "'", rest, '\'')
      case None => None
      case Some((command, end)) =>
        match ReadAfter(t.command + "[", command, ']')
        case None => None
        case Some((name, more)) => if end == t.end && more == "" then Some((probe, name)) else None
  }

  lemma {:induction false} ReadsBackAfter(prefix: string, s: string, q: char, rest: string)
    requires rest == "" || rest[0] != q
    ensures ReadAfter(prefix, prefix + Doubled(s, q) + [q] + rest, q) == Some((s, rest))
  {
    var t := prefix + Doubled(s, q) + [q] + rest;
    assert t[|prefix|..] == Doubled(s, q) + [q] + rest;
    ReadsBack(s, q, rest);
  }

  lemma {:induction false} DoubledAppend(a: string, b: string, q: char)
    ensures Doubled(a + b, q) == Doubled(a, q) + Doubled(b, q)
  {
    if a == "" {
      assert a + b == b;
    } else {
      assert (a + b)[1..] == a[1..] + b;
      DoubledAppend(a[1..], b, q);
    }
  }

  lemma {:induction false} NothingDoubled(s: string, q: char)
    requires q !in s
    ensures Doubled(s, q) == s
  {
    if s != "" {
      NothingDoubled(s[1..], q);
      assert s == [s[0]] + s[1..];
    }
  }

  lemma {:induction false} CommandDoubled(t: Template, name: string)
    requires '\'' !in t.command
    ensures t.command + Doubled(Bracketed(name), '\'') == Doubled(t.command + Bracketed(name), '\'')
    ensures t.command + Bracketed(name) == t.command + "[" + Doubled(name, ']') + "]" + ""
  {
    NothingDoubled(t.command, '\'');
    DoubledAppend(t.command, Bracketed(name), '\'');
  }

  lemma {:induction false} FilledReadsBack(t: Template, name: string)
    requires '\'' !in t.command && t.guard != "" && t.guard[0] != '\'' && (t.end == "" || t.end[0] != '\'')
    ensures ReadFilled(t, Filled(t, name)) == Some((name, name))
  {
    var command := t.command + Bracketed(name);
    CommandDoubled(t, name);
    var rest := t.guard + "'" + Doubled(command, '\'') + "'" + t.end;
    assert Filled(t, name) == t.probe + "'" + Doubled(name, '\'') + "'" + rest;
    assert rest[0] == t.guard[0];
    ReadsBackAfter(t.probe + "'", name, '\'', rest);
    ReadsBackAfter(t.guard + "'", command, '\'', t.end);
    ReadsBackAfter(t.command + "[", name, ']', "");
  }

  /** Whatever the name holds, quotes and brackets included, the statement asks for and creates the schema of that name. */
  lemma {:induction false} CreateSchemaReadsBack(name: string)
    ensures ReadFilled(CREATE_SCHEMA, CreateSchemaSql(name)) == Some((name, name))
  {
    FilledReadsBack(CREATE_SCHEMA, name);
  }
}
