/** `Array.prototype.reduce((acc, x) => acc + f(x), 0)`, the fold every cost in
    the wizard is computed with, and a plain sum it is proved equal to. */
module Folds {

  /** The fold as `reduce` runs it: left to right, threading an accumulator. */
  function Reduce<T>(acc: int, s: seq<T>, f: T -> int): int
    decreases |s|
  {
    if s == [] then acc else Reduce(acc + f(s[0]), s[1..], f)
  }

  /** Reference definition: the sum of `f` over the list. */
  function SumOf<T>(s: seq<T>, f: T -> int): int
    decreases |s|
  {
    if s == [] then 0 else f(s[0]) + SumOf(s[1..], f)
  }

  /** The accumulator fold adds exactly the sum to its seed. */
  lemma {:induction false} ReduceIsSum<T>(acc: int, s: seq<T>, f: T -> int)
    ensures Reduce(acc, s, f) == acc + SumOf(s, f)
    decreases |s|
  {
    if s != [] {
      ReduceIsSum(acc + f(s[0]), s[1..], f);
    }
  }

  /** The sum of a concatenation is the sum of its parts. */
  lemma {:induction false} SumOfAppend<T>(a: seq<T>, b: seq<T>, f: T -> int)
    ensures SumOf(a + b, f) == SumOf(a, f) + SumOf(b, f)
    decreases |a|
  {
    if a != [] {
      assert (a + b)[0] == a[0];
      assert (a + b)[1..] == a[1..] + b;
      SumOfAppend(a[1..], b, f);
    } else {
      assert a + b == b;
    }
  }

  /** Taking one element out of the list takes its term out of the sum. */
  lemma SumOfRemove<T>(b: seq<T>, i: int, f: T -> int)
    requires 0 <= i < |b|
    ensures SumOf(b, f) == f(b[i]) + SumOf(b[..i] + b[i + 1..], f)
  {
    assert b == b[..i] + [b[i]] + b[i + 1..];
    SumOfAppend(b[..i] + [b[i]], b[i + 1..], f);
    SumOfAppend(b[..i], [b[i]], f);
    SumOfAppend(b[..i], b[i + 1..], f);
    assert SumOf([b[i]], f) == f(b[i]);
  }

  /** Removing the same element from two permutations leaves permutations. */
  lemma MultisetRemove<T>(a: seq<T>, b: seq<T>, i: int)
    requires multiset(a) == multiset(b) && a != [] && 0 <= i < |b| && b[i] == a[0]
    ensures multiset(a[1..]) == multiset(b[..i] + b[i + 1..])
  {
    var x, rest := a[0], b[..i] + b[i + 1..];
    assert a == [x] + a[1..];
    assert b == b[..i] + [x] + b[i + 1..];
    assert multiset(a) == multiset{x} + multiset(a[1..]);
    assert multiset(b) == multiset{x} + multiset(rest);
    forall y ensures multiset(a[1..])[y] == multiset(rest)[y] {
      assert (multiset{x} + multiset(a[1..]))[y] == (multiset{x} + multiset(rest))[y];
    }
  }

  /** Reordering the list does not change the sum. */
  lemma {:induction false} SumOfPermutation<T>(a: seq<T>, b: seq<T>, f: T -> int)
    requires multiset(a) == multiset(b)
    ensures SumOf(a, f) == SumOf(b, f)
    decreases |a|
  {
    if a == [] {
      assert |b| == |multiset(b)| == 0;
    } else {
      assert a[0] in multiset(b);
      var i :| 0 <= i < |b| && b[i] == a[0];
      SumOfRemove(b, i, f);
      MultisetRemove(a, b, i);
      SumOfPermutation(a[1..], b[..i] + b[i + 1..], f);
    }
  }

  /** A sum of non-negative terms is non-negative. */
  lemma {:induction false} SumOfNonNegative<T>(s: seq<T>, f: T -> int)
    requires forall i :: 0 <= i < |s| ==> f(s[i]) >= 0
    ensures SumOf(s, f) >= 0
    decreases |s|
  {
    if s != [] {
      assert forall i :: 0 <= i < |s| - 1 ==> s[1..][i] == s[i + 1];
      SumOfNonNegative(s[1..], f);
    }
  }
}
