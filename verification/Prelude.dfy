/** Small shared datatypes. */
module Prelude {

  datatype Option<+T> = None | Some(value: T) {
    function GetOr(default: T): T {
      if Some? then value else default
    }
  }

  datatype Result<+T, +E> = Ok(value: T) | Err(error: E)

  predicate Distinct<T(==)>(xs: seq<T>) {
    forall a, b :: 0 <= a < b < |xs| ==> xs[a] != xs[b]
  }

  lemma {:induction false} DistinctBag<T>(xs: seq<T>, x: T)
    requires Distinct(xs)
    ensures multiset(xs)[x] <= 1
  {
    if xs != [] {
      DistinctBag(xs[1..], x);
      assert xs == [xs[0]] + xs[1..];
      assert xs[0] !in xs[1..];
    }
  }

  /** Rearranging brings in no duplicates. */
  lemma {:induction false} DistinctWhateverTheOrder<T>(xs: seq<T>, ys: seq<T>)
    requires Distinct(xs) && multiset(xs) == multiset(ys)
    ensures Distinct(ys)
  {
    forall a, b | 0 <= a < b < |ys|
      ensures ys[a] != ys[b]
    {
      DistinctBag(xs, ys[b]);
      assert ys == ys[..b] + ys[b..];
      assert ys[..b][a] in multiset(ys[..b]) && ys[b..][0] in multiset(ys[b..]);
    }
  }

  lemma {:induction false} TakeOneMore<T>(xs: seq<T>, i: nat)
    requires i < |xs|
    ensures xs[..i + 1] == xs[..i] + [xs[i]]
  {
  }

  /** The two parts of a prefix, element by element. */
  lemma {:induction false} PrefixParts<T>(xs: seq<T>, ys: seq<T>, all: seq<T>)
    requires xs + ys <= all
    ensures |xs| + |ys| <= |all|
    ensures forall k :: 0 <= k < |xs| ==> all[k] == xs[k]
    ensures forall k :: 0 <= k < |ys| ==> all[|xs| + k] == ys[k]
  {
  }

  lemma {:induction false} Regroup<T>(a: seq<T>, b: seq<T>, c: seq<T>)
    ensures (a + b) + c == a + (b + c)
  {
  }

  /** All but the last element, and the last element, of a concatenation. */
  lemma {:induction false} LastOfAppend<T>(xs: seq<T>, ys: seq<T>)
    requires ys != []
    ensures (xs + ys)[..|xs + ys| - 1] == xs + ys[..|ys| - 1] && (xs + ys)[|xs + ys| - 1] == ys[|ys| - 1]
  {
  }

  lemma {:induction false} HeadTail<T>(xs: seq<T>)
    requires xs != []
    ensures xs == [xs[0]] + xs[1..] && multiset(xs) == multiset{xs[0]} + multiset(xs[1..])
  {
  }

  lemma {:induction false} SameBagSameMembers<T>(xs: seq<T>, ys: seq<T>)
    requires multiset(xs) == multiset(ys)
    ensures |xs| == |ys| && forall x :: x in xs <==> x in ys
  {
    assert |xs| == |multiset(xs)| && |ys| == |multiset(ys)|;
    forall x
      ensures x in xs <==> x in ys
    {
      assert x in multiset(xs) <==> x in multiset(ys);
    }
  }
}
