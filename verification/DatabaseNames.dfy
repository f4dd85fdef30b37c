/** Database names: two spellings that differ in ASCII case only are one database, known by the spelling seen first. */
module DatabaseNames {

  /** ASCII lower case. */
  function Lower(c: char): char {
    if 'A' <= c <= 'Z' then c + ('a' - 'A') else c
  }

  const CAPITALS := "ABCDEFGHIJKLMNOPQRSTUVWXYZ"
  const SMALL := "abcdefghijklmnopqrstuvwxyz"

  /** Each capital becomes its small letter and nothing else changes. */
  lemma {:induction false} LowerMeans(c: char)
    ensures (forall k :: 0 <= k < 26 ==> Lower(CAPITALS[k]) == SMALL[k]) && (c !in CAPITALS ==> Lower(c) == c)
  {
    if 'A' <= c <= 'Z' {
      assert CAPITALS[c as int - 'A' as int] == c;
    }
  }

  function Folded(s: string): string {
    seq(|s|, i requires 0 <= i < |s| => Lower(s[i]))
  }

  /** No two database names differ in case only. */
  ghost predicate CaseDistinct(names: seq<string>) {
    forall i, j :: 0 <= i < |names| && 0 <= j < |names| && Folded(names[i]) == Folded(names[j]) ==> names[i] == names[j]
  }

  lemma {:induction false} SameFoldSameName(names: seq<string>, a: string, b: string)
    requires CaseDistinct(names) && a in names && b in names && Folded(a) == Folded(b)
    ensures a == b
  {
  }

  /** The position of the spelling of `name` that is known, `|names|` when none is. */
  function Find(names: seq<string>, name: string): (id: nat)
    ensures id <= |names| && (id < |names| ==> Folded(names[id]) == Folded(name))
    ensures forall i :: 0 <= i < id ==> Folded(names[i]) != Folded(name)
  {
    if names == [] then 0
    else if Folded(names[0]) == Folded(name) then 0
    else
      var id := Find(names[1..], name);
      assert forall i :: 1 <= i < id + 1 ==> names[i] == names[1..][i - 1];
      id + 1
  }

  /** The names once `name` is registered. */
  function Interned(names: seq<string>, name: string): (more: seq<string>)
    ensures names <= more && Find(names, name) < |more|
  {
    if Find(names, name) < |names| then names else names + [name]
  }

  /** Registering more names moves no name that was known, and gives the others ids past the end. */
  lemma {:induction false} FindStays(names: seq<string>, more: seq<string>, name: string)
    requires names <= more
    ensures if Find(names, name) < |names| then Find(more, name) == Find(names, name) else Find(more, name) >= |names|
  {
  }

  /** The first name after the empty one keeps its spelling. */
  lemma {:induction false} FirstName(name: string)
    ensures Find([""], name) < |Interned([""], name)| && Interned([""], name)[Find([""], name)] == name
  {
  }

  /** No name is listed in two spellings. */
  ghost predicate NoTwins(names: seq<string>) {
    forall i, j :: 0 <= i < j < |names| ==> Folded(names[i]) != Folded(names[j])
  }
}
