/**
 Two encoders that must not lose anything: the JSON list of object keys sent to the
 server, and the bytes the layout digest is computed from.
 */
module Encoders {
  import opened Prelude
  import opened Sorting

  // ---- JSON ----

  function HexDigit(n: nat): char
    requires n < 16
  {
    if n < 10 then ('0' as int + n) as char else ('a' as int + n - 10) as char
  }

  /** One character of a JSON string: quote, backslash and control characters are escaped. */
  function Escape(c: char): string {
    if c == '"' then "\\\""
    else if c == '\\' then "\\\\"
    else if (c as int) < 0x20 then "\\u00" + [HexDigit(c as int / 16), HexDigit(c as int % 16)]
    else [c]
  }

  function EscapeAll(s: string): string {
    if s == "" then "" else EscapeAll(s[..|s| - 1]) + Escape(s[|s| - 1])
  }

  function Quoted(s: string): string {
    "\"" + EscapeAll(s) + "\""
  }

  /** The elements of the array, separated by commas. */
  function Items(keys: seq<string>): string {
    if keys == [] then ""
    else if |keys| == 1 then Quoted(keys[0])
    else Items(keys[..|keys| - 1]) + "," + Quoted(keys[|keys| - 1])
  }

  function KeysJson(keys: seq<string>): string {
    "[" + Items(keys) + "]"
  }

  lemma {:induction false} EscapeOneMore(buf: string, s: string, i: nat)
    requires i < |s|
    ensures (buf + EscapeAll(s[..i])) + Escape(s[i]) == buf + EscapeAll(s[..i + 1])
  {
    assert s[..i + 1][..i] == s[..i];
  }

  method PushJsonStr(buf: string, s: string) returns (out: string)
    ensures out == buf + EscapeAll(s)
  {
    out := buf;
    for i := 0 to |s|
      invariant out == buf + EscapeAll(s[..i])
    {
      EscapeOneMore(buf, s, i);
      var c := s[i];
      if c == '"' {
        out := out + "\\\"";
      } else if c == '\\' {
        out := out + "\\\\";
      } else if (c as int) < 0x20 {
        out := out + ("\\u00" + [HexDigit(c as int / 16), HexDigit(c as int % 16)]);
      } else {
        out := out + [c];
      }
    }
    assert s[..|s|] == s;
  }

  lemma {:induction false} ItemsOneMore(keys: seq<string>, i: nat)
    requires i < |keys|
    ensures Items(keys[..i + 1]) == Items(keys[..i]) + (if i > 0 then "," else "") + Quoted(keys[i])
  {
    assert keys[..i + 1][..i] == keys[..i];
    if i == 0 {
      assert "" + "" + Quoted(keys[0]) == Quoted(keys[0]);
    }
  }

  lemma {:induction false} QuotedAppend(buf: string, s: string)
    ensures ((buf + "\"") + EscapeAll(s)) + "\"" == buf + Quoted(s)
  {
  }

  /** One element with its separator. */
  method PushItem(json: string, first: bool, key: string) returns (out: string)
    ensures out == (json + if first then "" else ",") + Quoted(key)
  {
    out := json;
    if !first {
      out := out + ",";
    }
    QuotedAppend(out, key);
    out := out + "\"";
    out := PushJsonStr(out, key);
    out := out + "\"";
  }

  method NormalizedKeysJson(keys: seq<string>) returns (json: string)
    ensures json == KeysJson(keys)
  {
    if keys == [] {
      return "[]";
    }
    json := "[";
    for i := 0 to |keys|
      invariant json == "[" + Items(keys[..i])
    {
      ItemsOneMore(keys, i);
      var items, comma := Items(keys[..i]), if i > 0 then "," else "";
      Regroup("[", items, comma);
      Regroup("[", items + comma, Quoted(keys[i]));
      json := PushItem(json, i == 0, keys[i]);
    }
    assert keys[..|keys|] == keys;
    json := json + "]";
  }

  // ---- A decoder after section 7 of RFC 8259 ----

  function HexValue(c: char): Option<nat> {
    if '0' <= c <= '9' then Some(c as int - '0' as int)
    else if 'a' <= c <= 'f' then Some(c as int - 'a' as int + 10)
    else if 'A' <= c <= 'F' then Some(c as int - 'A' as int + 10)
    else None
  }

  /** Four hex digits; escapes of surrogates, which the encoder never writes, are refused. */
  function HexFour(s: string): Option<char>
    requires |s| == 4
  {
    var a, b, c, d := HexValue(s[0]), HexValue(s[1]), HexValue(s[2]), HexValue(s[3]);
    if a.None? || b.None? || c.None? || d.None? then None
    else
      var n := ((a.value * 16 + b.value) * 16 + c.value) * 16 + d.value;
      if 0xD800 <= n < 0xE000 || n >= 0x10000 then None else Some(n as char)
  }

  function ShortEscape(c: char): Option<char> {
    match c
    case '"' => Some('"')
    case '\\' => Some('\\')
    case '/' => Some('/')
    case 'b' => Some(8 as char)
    case 'f' => Some(12 as char)
    case 'n' => Some('\n')
    case 'r' => Some('\r')
    case 't' => Some('\t')
    case _ => None
  }

  function Prepend(c: char, r: Option<(string, string)>): Option<(string, string)> {
    match r
    case None => None
    case Some(pair) => Some(([c] + pair.0, pair.1))
  }

  /** Reads characters up to the closing quote; returns the string and what follows it. */
  function ReadString(t: string): Option<(string, string)>
    decreases |t|
  {
    if t == "" then None
    else if t[0] == '"' then Some(("", t[1..]))
    else if t[0] == '\\' then
      if |t| < 2 then None
      else if t[1] == 'u' then
        if |t| < 6 then None
        else
          match HexFour(t[2..6])
          case None => None
          case Some(c) => Prepend(c, ReadString(t[6..]))
      else
        match ShortEscape(t[1])
        case None => None
        case Some(c) => Prepend(c, ReadString(t[2..]))
    else if (t[0] as int) < 0x20 then None
    else Prepend(t[0], ReadString(t[1..]))
  }

  /** Reads the elements up to the closing bracket, which must end the text. */
  function ReadItems(t: string): Option<seq<string>>
    decreases |t|
  {
    if t == "" || t[0] != '"' then None
    else
      match ReadString(t[1..])
      case None => None
      case Some((s, rest)) =>
        if rest == "]" then Some([s])
        else if rest != "" && rest[0] == ',' && |rest| < |t| then
          match ReadItems(rest[1..])
          case None => None
          case Some(more) => Some([s] + more)
        else None
  }

  function ReadArray(t: string): Option<seq<string>> {
    if t == "[]" then Some([]) else if t != "" && t[0] == '[' then ReadItems(t[1..]) else None
  }

  /** Each escaped character reads back as itself. */
  lemma {:induction false} EscapeReadBack(c: char, t: string)
    ensures ReadString(Escape(c) + t) == Prepend(c, ReadString(t))
  {
  }

  function PrependAll(s: string, r: Option<(string, string)>): Option<(string, string)> {
    match r
    case None => None
    case Some(pair) => Some((s + pair.0, pair.1))
  }

  lemma {:induction false} PrependStep(s: string, n: nat, r: Option<(string, string)>)
    requires n + 1 == |s|
    ensures PrependAll(s[..n], Prepend(s[n], r)) == PrependAll(s, r)
  {
    if r.Some? {
      assert s[..n] + ([s[n]] + r.value.0) == s + r.value.0;
    }
  }

  lemma {:induction false} PrependNothing(r: Option<(string, string)>)
    ensures PrependAll("", r) == r
  {
    if r.Some? {
      assert "" + r.value.0 == r.value.0;
    }
  }

  lemma {:induction false} EscapeSplit(s: string, n: nat, t: string)
    requires n + 1 == |s|
    ensures EscapeAll(s) + t == EscapeAll(s[..n]) + (Escape(s[n]) + t)
  {
  }

  lemma {:induction false} EscapeAllReadBack(s: string, t: string, r: Option<(string, string)>)
    requires ReadString(t) == r
    ensures ReadString(EscapeAll(s) + t) == PrependAll(s, r)
  {
    if s == "" {
      assert EscapeAll(s) + t == t;
      PrependNothing(r);
    } else {
      var n := |s| - 1;
      var u := Escape(s[n]) + t;
      EscapeReadBack(s[n], t);
      EscapeAllReadBack(s[..n], u, Prepend(s[n], r));
      EscapeSplit(s, n, t);
      PrependStep(s, n, r);
    }
  }

  lemma {:induction false} QuotedReadBack(s: string, rest: string)
    ensures (Quoted(s) + rest)[0] == '"' && ReadString((Quoted(s) + rest)[1..]) == Some((s, rest))
  {
    var t := Quoted(s) + rest;
    assert t[1..] == EscapeAll(s) + ("\"" + rest);
    assert ("\"" + rest)[1..] == rest;
    EscapeAllReadBack(s, "\"" + rest, Some(("", rest)));
    assert s + "" == s;
  }

  lemma {:induction false} ItemsFirst(keys: seq<string>)
    requires |keys| > 1
    ensures Items(keys) == Quoted(keys[0]) + ("," + Items(keys[1..]))
  {
    var n := |keys| - 1;
    var first, last := Quoted(keys[0]), "," + Quoted(keys[n]);
    Regroup(Items(keys[..n]), ",", Quoted(keys[n]));
    if n == 1 {
      assert keys[..1] == [keys[0]] && keys[1..] == [keys[1]];
    } else {
      ItemsFirst(keys[..n]);
      var middle := keys[1..][..n - 1];
      assert keys[..n][1..] == middle && keys[1..][n - 1] == keys[n];
      Regroup(Items(middle), ",", Quoted(keys[n]));
      Regroup(first, "," + Items(middle), last);
      Regroup(",", Items(middle), last);
    }
  }

  lemma {:induction false} ReadOneItem(s: string, rest: string)
    ensures ReadItems(Quoted(s) + rest) ==
            if rest == "]" then Some([s])
            else if rest != "" && rest[0] == ',' then
              match ReadItems(rest[1..]) {
                case None => None
                case Some(more) => Some([s] + more)
              }
            else None
  {
    QuotedReadBack(s, rest);
    assert |rest| < |Quoted(s) + rest|;
  }

  lemma {:induction false} ReadMoreItems(s: string, tail: string, more: seq<string>)
    requires ReadItems(tail) == Some(more)
    ensures ReadItems(Quoted(s) + ("," + tail)) == Some([s] + more)
  {
    var rest := "," + tail;
    assert rest[0] == ',' && rest[1..] == tail;
    ReadOneItem(s, rest);
  }

  lemma {:induction false} ItemsSplit(keys: seq<string>)
    requires |keys| > 1
    ensures Items(keys) + "]" == Quoted(keys[0]) + ("," + (Items(keys[1..]) + "]"))
  {
    ItemsFirst(keys);
    Regroup(Quoted(keys[0]), "," + Items(keys[1..]), "]");
    Regroup(",", Items(keys[1..]), "]");
  }

  lemma {:induction false} ItemsReadBack(keys: seq<string>)
    requires keys != []
    ensures ReadItems(Items(keys) + "]") == Some(keys)
  {
    if |keys| == 1 {
      ReadOneItem(keys[0], "]");
      assert Items(keys) == Quoted(keys[0]) && keys == [keys[0]];
    } else {
      ItemsReadBack(keys[1..]);
      ItemsSplit(keys);
      ReadMoreItems(keys[0], Items(keys[1..]) + "]", keys[1..]);
      assert keys == [keys[0]] + keys[1..];
    }
  }

  /** The JSON list decodes to exactly the list of keys, whatever characters they hold. */
  lemma {:induction false} KeysRoundTrip(keys: seq<string>)
    ensures ReadArray(KeysJson(keys)) == Some(keys)
  {
    if keys == [] {
      assert KeysJson(keys) == "[]";
    } else {
      ItemsReadBack(keys);
      var t := KeysJson(keys);
      assert t[1..] == Items(keys) + "]";
      ItemsStart(keys);
      assert t[1] == '"';
    }
  }

  lemma {:induction false} ItemsStart(keys: seq<string>)
    requires keys != []
    ensures Items(keys) != "" && Items(keys)[0] == '"'
  {
    if |keys| > 1 {
      ItemsStart(keys[..|keys| - 1]);
    }
  }

  // ---- The input of the layout digest ----

  /** The `k` low bytes of `n`, least significant first. */
  function LittleEndian(n: nat, k: nat): (bytes: string)
    ensures |bytes| == k
  {
    if k == 0 then "" else [(n % 256) as char] + LittleEndian(n / 256, k - 1)
  }

  function Power256(k: nat): nat {
    if k == 0 then 1 else 256 * Power256(k - 1)
  }

  lemma {:induction false} LittleEndianInjective(a: nat, b: nat, k: nat)
    requires LittleEndian(a, k) == LittleEndian(b, k) && a < Power256(k) && b < Power256(k)
    ensures a == b
    decreases k
  {
    if k > 0 {
      var x, y := LittleEndian(a, k), LittleEndian(b, k);
      assert x[0] == y[0] && a % 256 == b % 256;
      assert x[1..] == LittleEndian(a / 256, k - 1) && y[1..] == LittleEndian(b / 256, k - 1);
      assert a / 256 < Power256(k - 1) && b / 256 < Power256(k - 1);
      LittleEndianInjective(a / 256, b / 256, k - 1);
    }
  }

  /** One path with its length as 8 bytes in front. */
  function Framed(path: string): string {
    LittleEndian(|path|, 8) + path
  }

  function Stream(paths: seq<string>): string {
    if paths == [] then "" else Stream(paths[..|paths| - 1]) + Framed(paths[|paths| - 1])
  }

  /** Sorted, framed, concatenated: what the digest is computed over. */
  method LayoutDigestInput(paths: seq<string>) returns (bytes: string)
    ensures bytes == Stream(Sort(paths, StringLe))
  {
    var keys := Sort(paths, StringLe);
    bytes := "";
    for i := 0 to |keys|
      invariant bytes == Stream(keys[..i])
    {
      assert keys[..i + 1][..i] == keys[..i];
      bytes := bytes + (LittleEndian(|keys[i]|, 8) + keys[i]);
    }
    assert keys[..|keys|] == keys;
  }

  /** Lengths fit into 64 bits. */
  ghost predicate Representable(paths: seq<string>) {
    forall p :: p in paths ==> |p| < Power256(8)
  }

  lemma {:induction false} StreamFirst(paths: seq<string>)
    requires paths != []
    ensures Stream(paths) == Framed(paths[0]) + Stream(paths[1..])
  {
    var n := |paths| - 1;
    if n == 0 {
      assert paths[..0] == [] && Stream(paths[1..]) == "";
    } else {
      StreamFirst(paths[..n]);
      var middle := paths[1..][..n - 1];
      assert paths[..n][1..] == middle && paths[1..][n - 1] == paths[n];
      Regroup(Framed(paths[0]), Stream(middle), Framed(paths[n]));
    }
  }

  lemma {:induction false} FramedApart(x: string, y: string, s: string, t: string)
    requires Framed(x) + s == Framed(y) + t && |x| < Power256(8) && |y| < Power256(8)
    ensures x == y && s == t
  {
    var u, v := Framed(x) + s, Framed(y) + t;
    assert u[..8] == LittleEndian(|x|, 8) && v[..8] == LittleEndian(|y|, 8);
    LittleEndianInjective(|x|, |y|, 8);
    assert u[8..8 + |x|] == x && v[8..8 + |y|] == y;
    assert u[8 + |x|..] == s && v[8 + |y|..] == t;
  }

  lemma {:induction false} StreamInjective(xs: seq<string>, ys: seq<string>)
    requires Stream(xs) == Stream(ys) && Representable(xs) && Representable(ys)
    ensures xs == ys
    decreases |xs|
  {
    if xs == [] {
      if ys != [] {
        StreamFirst(ys);
      }
    } else if ys == [] {
      StreamFirst(xs);
    } else {
      StreamFirst(xs);
      StreamFirst(ys);
      assert xs[0] in xs && ys[0] in ys;
      FramedApart(xs[0], ys[0], Stream(xs[1..]), Stream(ys[1..]));
      assert (forall p :: p in xs[1..] ==> p in xs) && (forall p :: p in ys[1..] ==> p in ys);
      StreamInjective(xs[1..], ys[1..]);
      assert xs == [xs[0]] + xs[1..] && ys == [ys[0]] + ys[1..];
    }
  }

  /** Two layouts feed the digest the same bytes if and only if they hold the same paths, in whatever order. */
  lemma {:induction false} DigestInputExact(xs: seq<string>, ys: seq<string>)
    requires Representable(xs) && Representable(ys)
    ensures Stream(Sort(xs, StringLe)) == Stream(Sort(ys, StringLe)) <==> multiset(xs) == multiset(ys)
  {
    SortKeeps(xs, StringLe);
    SortKeeps(ys, StringLe);
    if multiset(xs) == multiset(ys) {
      StringOrdering();
      forall a, b | a in xs && b in xs && StringLe(a, b) && StringLe(b, a)
        ensures a == b
      {
        StringLeAntisymmetric(a, b);
      }
      SortWhateverTheOrder(xs, ys, StringLe);
    }
    if Stream(Sort(xs, StringLe)) == Stream(Sort(ys, StringLe)) {
      StreamInjective(Sort(xs, StringLe), Sort(ys, StringLe));
    }
  }
}
