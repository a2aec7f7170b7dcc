/**
 * `sorted(...)` over a set of keys: a strict total order, a method that
 * sorts a finite set by it, and the fact that the sorted sequence of a set
 * is unique.  String order is Python's code-point lexicographic order.
 */
module Ordering {

  ghost predicate IsStrictTotalOrder<T(!new)>(less: (T, T) -> bool) {
    && (forall a :: !less(a, a))
    && (forall a, b, c :: less(a, b) && less(b, c) ==> less(a, c))
    && (forall a, b :: a != b ==> less(a, b) || less(b, a))
  }

  /** Strictly ascending under `less` (so also free of duplicates). */
  ghost predicate SortedBy<T>(r: seq<T>, less: (T, T) -> bool) {
    forall i, j :: 0 <= i < j < |r| ==> less(r[i], r[j])
  }

  /** `r` lists exactly the elements of `s`. */
  ghost predicate Lists<T(!new)>(r: seq<T>, s: set<T>) {
    forall x :: x in r <==> x in s
  }

  /** A finite non-empty set has a least element. */
  lemma {:induction false} MinExists<T(!new)>(s: set<T>, less: (T, T) -> bool) returns (m: T)
    requires IsStrictTotalOrder(less) && s != {}
    ensures m in s && forall y :: y in s && y != m ==> less(m, y)
    decreases |s|
  {
    var x :| x in s;
    if s == {x} {
      m := x;
    } else {
      var m' := MinExists(s - {x}, less);
      m := if less(x, m') then x else m';
      forall y | y in s && y != m ensures less(m, y) {
        if y != x && y != m' {
          assert less(m', y);
        }
      }
    }
  }

  /** `sorted(s)` for a set `s`. */
  method SortSet<T(!new)>(s: set<T>, less: (T, T) -> bool) returns (r: seq<T>)
    requires IsStrictTotalOrder(less)
    ensures SortedBy(r, less) && Lists(r, s) && |r| == |s|
  {
    r := [];
    var rest := s;
    while rest != {}
      invariant rest <= s
      invariant forall x :: x in s <==> x in r || x in rest
      invariant forall x :: x in r ==> x !in rest
      invariant SortedBy(r, less)
      invariant forall i, y :: 0 <= i < |r| && y in rest ==> less(r[i], y)
      invariant |r| + |rest| == |s|
      decreases |rest|
    {
      ghost var least := MinExists(rest, less);
      var m :| m in rest && forall y :: y in rest && y != m ==> less(m, y);
      r := r + [m];
      rest := rest - {m};
    }
  }

  lemma SortedDistinct<T(!new)>(r: seq<T>, less: (T, T) -> bool, i: int, j: int)
    requires IsStrictTotalOrder(less) && SortedBy(r, less)
    requires 0 <= i < |r| && 0 <= j < |r| && i != j
    ensures r[i] != r[j]
  {
    if i < j { assert less(r[i], r[j]); } else { assert less(r[j], r[i]); }
  }

  /** An element above all of a sorted sequence can go at its end. */
  lemma SortedAppend<T>(r: seq<T>, x: T, less: (T, T) -> bool)
    requires SortedBy(r, less) && forall j :: 0 <= j < |r| ==> less(r[j], x)
    ensures SortedBy(r + [x], less)
  {
  }

  /** A set has exactly one sorted listing. */
  lemma {:induction false} SortedUnique<T(!new)>(r1: seq<T>, r2: seq<T>, less: (T, T) -> bool)
    requires IsStrictTotalOrder(less)
    requires SortedBy(r1, less) && SortedBy(r2, less)
    requires forall x :: x in r1 <==> x in r2
    ensures r1 == r2
    decreases |r1|
  {
    assert r1 != [] ==> r1[0] in r2;
    assert r2 != [] ==> r2[0] in r1;
    if r1 != [] && r2 != [] {
      HeadIsLeast(r1, less, r2[0]);
      HeadIsLeast(r2, less, r1[0]);
      assert r1[0] == r2[0];
      forall x ensures x in r1[1..] <==> x in r2[1..] {
        if x in r1[1..] {
          var i :| 1 <= i < |r1| && r1[i] == x;
          SortedDistinct(r1, less, 0, i);
          assert x in r2;
        }
        if x in r2[1..] {
          var i :| 1 <= i < |r2| && r2[i] == x;
          SortedDistinct(r2, less, 0, i);
          assert x in r1;
        }
      }
      SortedUnique(r1[1..], r2[1..], less);
      assert r1 == [r1[0]] + r1[1..];
      assert r2 == [r2[0]] + r2[1..];
    }
  }

  lemma HeadIsLeast<T(!new)>(r: seq<T>, less: (T, T) -> bool, x: T)
    requires SortedBy(r, less) && x in r
    ensures x == r[0] || less(r[0], x)
  {
    var i :| 0 <= i < |r| && r[i] == x;
    if i > 0 { assert less(r[0], r[i]); }
  }

  /** Python's `str` comparison: code-point lexicographic order. */
  predicate StrLess(a: string, b: string)
    decreases |a|
  {
    if |a| == 0 then |b| > 0
    else if |b| == 0 then false
    else if a[0] != b[0] then a[0] < b[0]
    else StrLess(a[1..], b[1..])
  }

  lemma {:induction false} StrLessIrreflexive(a: string)
    ensures !StrLess(a, a)
    decreases |a|
  {
    if |a| > 0 { StrLessIrreflexive(a[1..]); }
  }

  lemma {:induction false} StrLessTransitive(a: string, b: string, c: string)
    requires StrLess(a, b) && StrLess(b, c)
    ensures StrLess(a, c)
    decreases |a|
  {
    if |a| > 0 && a[0] == b[0] && b[0] == c[0] {
      StrLessTransitive(a[1..], b[1..], c[1..]);
    }
  }

  lemma {:induction false} StrLessTotal(a: string, b: string)
    requires a != b
    ensures StrLess(a, b) || StrLess(b, a)
    decreases |a|
  {
    if |a| > 0 && |b| > 0 && a[0] == b[0] {
      assert a == [a[0]] + a[1..] && b == [b[0]] + b[1..];
      StrLessTotal(a[1..], b[1..]);
    }
  }

  lemma StrLessIsStrictTotalOrder()
    ensures IsStrictTotalOrder(StrLess)
  {
    forall a { StrLessIrreflexive(a); }
    forall a, b, c | StrLess(a, b) && StrLess(b, c) { StrLessTransitive(a, b, c); }
    forall a, b | a != b { StrLessTotal(a, b); }
  }
}
