/** Stable sorting as a function, with the facts the callers rely on. */
module Sorting {
  import opened Prelude

  /** Byte-wise order of strings, which for Unicode scalars is scalar order. */
  predicate StringLe(a: string, b: string) {
    a == [] || (b != [] && (a[0] < b[0] || (a[0] == b[0] && StringLe(a[1..], b[1..]))))
  }

  /** `a` is a prefix of `b`, or smaller where they first differ. */
  ghost predicate Ascends(a: string, b: string) {
    a <= b || exists k :: SmallerAt(a, b, k)
  }

  predicate SmallerAt(a: string, b: string, k: int) {
    0 <= k < |a| && k < |b| && a[..k] == b[..k] && a[k] < b[k]
  }

  lemma {:induction false} SmallerBehind(c: char, x: string, y: string, k: nat)
    ensures SmallerAt([c] + x, [c] + y, k + 1) <==> SmallerAt(x, y, k)
  {
    if k < |x| && k < |y| {
      assert ([c] + x)[..k + 1] == [c] + x[..k] && ([c] + y)[..k + 1] == [c] + y[..k];
      assert ([c] + x)[..k + 1][1..] == x[..k] && ([c] + y)[..k + 1][1..] == y[..k];
    }
  }

  /** A common first character does not matter. */
  lemma {:induction false} AscendsBehind(c: char, x: string, y: string)
    ensures Ascends([c] + x, [c] + y) <==> Ascends(x, y)
  {
    if k :| SmallerAt([c] + x, [c] + y, k) {
      SmallerBehind(c, x, y, k - 1);
    }
    if k :| SmallerAt(x, y, k) {
      SmallerBehind(c, x, y, k);
    }
    assert [c] + x <= [c] + y <==> x <= y by {
      assert ([c] + x)[1..] == x && ([c] + y)[1..] == y;
    }
  }

  lemma {:induction false} StringLeMeans(a: string, b: string)
    ensures StringLe(a, b) <==> Ascends(a, b)
  {
    if a != [] && b != [] {
      if a[0] == b[0] {
        StringLeMeans(a[1..], b[1..]);
        AscendsBehind(a[0], a[1..], b[1..]);
        assert a == [a[0]] + a[1..] && b == [b[0]] + b[1..];
      } else {
        assert a[..0] == b[..0];
        assert a[0] < b[0] ==> SmallerAt(a, b, 0);
        forall k | 0 < k < |a| && k < |b|
          ensures a[..k] != b[..k]
        {
          assert a[..k][0] == a[0] && b[..k][0] == b[0];
        }
      }
    }
  }

  lemma {:induction false} StringLeTotal(a: string, b: string)
    ensures StringLe(a, b) || StringLe(b, a)
  {
    if a != [] && b != [] {
      StringLeTotal(a[1..], b[1..]);
    }
  }

  lemma {:induction false} StringLeAntisymmetric(a: string, b: string)
    requires StringLe(a, b) && StringLe(b, a)
    ensures a == b
  {
    if a != [] {
      StringLeAntisymmetric(a[1..], b[1..]);
      assert a == [a[0]] + a[1..] && b == [b[0]] + b[1..];
    }
  }

  lemma {:induction false} StringLeTransitive(a: string, b: string, c: string)
    requires StringLe(a, b) && StringLe(b, c)
    ensures StringLe(a, c)
  {
    if a != [] && a[0] == b[0] == c[0] {
      StringLeTransitive(a[1..], b[1..], c[1..]);
    }
  }

  /** A total preorder. */
  ghost predicate Ordering<T(!new)>(le: (T, T) -> bool) {
    && (forall x, y :: le(x, y) || le(y, x))
    && (forall x, y, z :: le(x, y) && le(y, z) ==> le(x, z))
  }

  lemma {:induction false} StringOrdering()
    ensures Ordering(StringLe)
  {
    forall x, y ensures StringLe(x, y) || StringLe(y, x) { StringLeTotal(x, y); }
    forall x, y, z | StringLe(x, y) && StringLe(y, z) ensures StringLe(x, z) { StringLeTransitive(x, y, z); }
  }

  ghost predicate Sorted<T>(xs: seq<T>, le: (T, T) -> bool) {
    forall i, j :: 0 <= i < j < |xs| ==> le(xs[i], xs[j])
  }

  function Place<T>(x: T, xs: seq<T>, le: (T, T) -> bool): seq<T> {
    if xs == [] || le(x, xs[0]) then [x] + xs else [xs[0]] + Place(x, xs[1..], le)
  }

  function Sort<T>(xs: seq<T>, le: (T, T) -> bool): seq<T> {
    if xs == [] then [] else Place(xs[0], Sort(xs[1..], le), le)
  }

  lemma {:induction false} PlaceKeeps<T>(x: T, xs: seq<T>, le: (T, T) -> bool)
    ensures multiset(Place(x, xs, le)) == multiset(xs) + multiset{x}
    ensures |Place(x, xs, le)| == |xs| + 1
  {
    if xs == [] || le(x, xs[0]) {
    } else {
      PlaceKeeps(x, xs[1..], le);
      HeadTail(xs);
    }
  }

  lemma {:induction false} SortKeepsBag<T>(xs: seq<T>, le: (T, T) -> bool)
    ensures multiset(Sort(xs, le)) == multiset(xs)
  {
    if xs != [] {
      SortKeepsBag(xs[1..], le);
      PlaceKeeps(xs[0], Sort(xs[1..], le), le);
      HeadTail(xs);
    }
  }

  lemma {:induction false} SortKeeps<T>(xs: seq<T>, le: (T, T) -> bool)
    ensures multiset(Sort(xs, le)) == multiset(xs)
    ensures |Sort(xs, le)| == |xs|
    ensures forall x :: x in Sort(xs, le) <==> x in xs
  {
    SortKeepsBag(xs, le);
    SameBagSameMembers(Sort(xs, le), xs);
  }

  lemma {:induction false} PlaceSorts<T(!new)>(x: T, xs: seq<T>, le: (T, T) -> bool)
    requires Sorted(xs, le) && Ordering(le)
    ensures Sorted(Place(x, xs, le), le)
  {
    if xs == [] || le(x, xs[0]) {
    } else {
      var rest := Place(x, xs[1..], le);
      PlaceSorts(x, xs[1..], le);
      PlaceKeeps(x, xs[1..], le);
      forall j | 0 <= j < |rest|
        ensures le(xs[0], rest[j])
      {
        assert rest[j] in multiset(rest);
        assert rest[j] == x || rest[j] in xs[1..];
      }
    }
  }

  lemma {:induction false} SortSorts<T(!new)>(xs: seq<T>, le: (T, T) -> bool)
    requires Ordering(le)
    ensures Sorted(Sort(xs, le), le)
  {
    if xs != [] {
      SortSorts(xs[1..], le);
      PlaceSorts(xs[0], Sort(xs[1..], le), le);
    }
  }

  lemma {:induction false} SameHead<T>(xs: seq<T>, ys: seq<T>, le: (T, T) -> bool)
    requires Sorted(xs, le) && Sorted(ys, le) && multiset(xs) == multiset(ys) && xs != []
    requires forall x, y :: x in xs && y in xs && le(x, y) && le(y, x) ==> x == y
    ensures |xs| == |ys| && xs[0] == ys[0]
  {
    SameBagSameMembers(xs, ys);
    assert xs[0] in xs && ys[0] in ys;
    var i :| 0 <= i < |ys| && ys[i] == xs[0];
    var j :| 0 <= j < |xs| && xs[j] == ys[0];
  }

  lemma {:induction false} SameTails<T>(xs: seq<T>, ys: seq<T>)
    requires xs != [] && ys != [] && xs[0] == ys[0] && multiset(xs) == multiset(ys)
    ensures multiset(xs[1..]) == multiset(ys[1..])
  {
    HeadTail(xs);
    HeadTail(ys);
    forall x: T
      ensures multiset(xs[1..])[x] == multiset(ys[1..])[x]
    {
      assert multiset(xs)[x] == multiset{xs[0]}[x] + multiset(xs[1..])[x] && multiset(ys)[x] == multiset{ys[0]}[x] + multiset(ys[1..])[x];
    }
  }

  /** When no two elements tie, a sorted arrangement is unique. */
  lemma {:induction false} OneArrangement<T>(xs: seq<T>, ys: seq<T>, le: (T, T) -> bool)
    requires Sorted(xs, le) && Sorted(ys, le) && multiset(xs) == multiset(ys)
    requires forall x, y :: x in xs && y in xs && le(x, y) && le(y, x) ==> x == y
    ensures xs == ys
  {
    SameBagSameMembers(xs, ys);
    if xs != [] {
      SameHead(xs, ys, le);
      SameTails(xs, ys);
      OneArrangement(xs[1..], ys[1..], le);
    }
  }

  /** Sorting does not depend on the arrangement of its input when no two elements tie. */
  lemma {:induction false} SortWhateverTheOrder<T(!new)>(xs: seq<T>, ys: seq<T>, le: (T, T) -> bool)
    requires Ordering(le) && multiset(xs) == multiset(ys)
    requires forall x, y :: x in xs && y in xs && le(x, y) && le(y, x) ==> x == y
    ensures Sort(xs, le) == Sort(ys, le)
  {
    SortSorts(xs, le);
    SortSorts(ys, le);
    SortKeeps(xs, le);
    SortKeeps(ys, le);
    OneArrangement(Sort(xs, le), Sort(ys, le), le);
  }
}
