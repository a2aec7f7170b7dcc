/** Sums of a function over the elements of a sequence, and their order independence. */
module Sums {

  function SumBy<T>(xs: seq<T>, f: T -> int): int
    decreases |xs|
  {
    if xs == [] then 0 else SumBy(xs[..|xs| - 1], f) + f(xs[|xs| - 1])
  }

  lemma {:induction false} SumByRemove<T>(xs: seq<T>, f: T -> int, i: int)
    requires 0 <= i < |xs|
    ensures SumBy(xs, f) == SumBy(xs[..i] + xs[i + 1..], f) + f(xs[i])
    decreases |xs|
  {
    var n := |xs|;
    if i == n - 1 {
      assert xs[..i] + xs[i + 1..] == xs[..n - 1];
    } else {
      var init := xs[..n - 1];
      SumByRemove(init, f, i);
      var r := xs[..i] + xs[i + 1..];
      assert r[..|r| - 1] == init[..i] + init[i + 1..];
      assert r[|r| - 1] == xs[n - 1];
      assert init[i] == xs[i];
    }
  }

  /** Reordering the elements does not change the sum. */
  lemma {:induction false} SumByPermutation<T>(xs: seq<T>, ys: seq<T>, f: T -> int)
    requires multiset(xs) == multiset(ys)
    ensures SumBy(xs, f) == SumBy(ys, f)
    decreases |ys|
  {
    if ys == [] {
      assert |multiset(xs)| == 0;
    } else {
      var n := |ys|;
      var x := ys[n - 1];
      assert ys == ys[..n - 1] + [x];
      assert x in multiset(xs);
      var i :| 0 <= i < |xs| && xs[i] == x;
      SumByRemove(xs, f, i);
      var rest := xs[..i] + xs[i + 1..];
      assert xs == xs[..i] + [x] + xs[i + 1..];
      assert multiset(xs) == multiset(rest) + multiset{x} by {
        assert multiset(xs) == multiset(xs[..i]) + multiset{x} + multiset(xs[i + 1..]);
        assert multiset(rest) == multiset(xs[..i]) + multiset(xs[i + 1..]);
      }
      assert multiset(ys) == multiset(ys[..n - 1]) + multiset{x};
      assert multiset(rest) == multiset(ys[..n - 1]) by {
        assert multiset(rest) == multiset(xs) - multiset{x};
        assert multiset(ys[..n - 1]) == multiset(ys) - multiset{x};
      }
      SumByPermutation(rest, ys[..n - 1], f);
    }
  }

  predicate Distinct<T(==)>(xs: seq<T>) {
    forall i, j :: 0 <= i < j < |xs| ==> xs[i] != xs[j]
  }

  /** Functions that agree on the elements have the same sum. */
  lemma {:induction false} SumByAgree<T>(xs: seq<T>, f: T -> int, g: T -> int)
    requires forall i :: 0 <= i < |xs| ==> f(xs[i]) == g(xs[i])
    ensures SumBy(xs, f) == SumBy(xs, g)
    decreases |xs|
  {
    if xs != [] {
      SumByAgree(xs[..|xs| - 1], f, g);
    }
  }

  lemma {:induction false} SumByZero<T>(xs: seq<T>, f: T -> int)
    requires forall i :: 0 <= i < |xs| ==> f(xs[i]) == 0
    ensures SumBy(xs, f) == 0
    decreases |xs|
  {
    if xs != [] {
      SumByZero(xs[..|xs| - 1], f);
    }
  }

  /** The sum of a pointwise sum. */
  lemma {:induction false} SumByAdd<T>(xs: seq<T>, f: T -> int, g: T -> int, h: T -> int)
    requires forall i :: 0 <= i < |xs| ==> h(xs[i]) == f(xs[i]) + g(xs[i])
    ensures SumBy(xs, h) == SumBy(xs, f) + SumBy(xs, g)
    decreases |xs|
  {
    if xs != [] {
      SumByAdd(xs[..|xs| - 1], f, g, h);
    }
  }

  /** A function that is zero except at `y` sums, over distinct elements, to its value at `y` when `y` occurs. */
  lemma {:induction false} SumByOne<T>(xs: seq<T>, f: T -> int, y: T)
    requires Distinct(xs)
    requires forall i :: 0 <= i < |xs| && xs[i] != y ==> f(xs[i]) == 0
    ensures SumBy(xs, f) == if y in xs then f(y) else 0
    decreases |xs|
  {
    if xs != [] {
      var init := xs[..|xs| - 1];
      SumByOne(init, f, y);
      if xs[|xs| - 1] == y {
        assert y !in init;
      } else {
        assert y in xs <==> y in init;
      }
    }
  }
}
