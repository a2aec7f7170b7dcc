/**
 * Nested `defaultdict`s three levels deep, `m[a][b][c]`, as the grouping
 * loops build them: reading a missing key gives a default, and writing a
 * cell creates the outer levels it needs.
 */
module Nested {
  import opened Wrappers

  type Cube<A(==), B(==), C(==), V> = map<A, map<B, map<C, V>>>

  /** `m.get(a, {}).get(b, {}).get(c, zero)` */
  function At<A(==), B(==), C(==), V>(m: Cube<A, B, C, V>, a: A, b: B, c: C, zero: V): V {
    if a in m && b in m[a] && c in m[a][b] then m[a][b][c] else zero
  }

  /** The cell at `m[a][b][c]`, None when any level lacks the key. */
  function Find<A(==), B(==), C(==), V>(m: Cube<A, B, C, V>, a: A, b: B, c: C): Option<V> {
    if a in m && b in m[a] && c in m[a][b] then Some(m[a][b][c]) else None
  }

  /** `m[a][b][c] = v` on `defaultdict`s. */
  function Set<A(==), B(==), C(==), V>(m: Cube<A, B, C, V>, a: A, b: B, c: C, v: V): Cube<A, B, C, V> {
    var inner: map<B, map<C, V>> := if a in m then m[a] else map[];
    var cells: map<C, V> := if b in inner then inner[b] else map[];
    m[a := inner[b := cells[c := v]]]
  }

  /** Writing one cell changes that cell and no other. */
  lemma SetAt<A, B, C, V>(m: Cube<A, B, C, V>, a: A, b: B, c: C, v: V, a': A, b': B, c': C, zero: V)
    ensures At(Set(m, a, b, c, v), a', b', c', zero) == if a' == a && b' == b && c' == c then v else At(m, a', b', c', zero)
  {
  }

  /** Writing one cell makes that cell present and leaves every other one as it was. */
  lemma SetFind<A, B, C, V>(m: Cube<A, B, C, V>, a: A, b: B, c: C, v: V, a': A, b': B, c': C)
    ensures Find(Set(m, a, b, c, v), a', b', c') == if a' == a && b' == b && c' == c then Some(v) else Find(m, a', b', c')
  {
  }

  /** Writing a cell adds its (a, b) pair and keeps the others. */
  lemma SetPairs<A, B, C, V>(m: Cube<A, B, C, V>, a: A, b: B, c: C, v: V, a': A, b': B)
    ensures var m' := Set(m, a, b, c, v);
      a' in m' && b' in m'[a'] <==> (a' in m && b' in m[a']) || (a' == a && b' == b)
  {
  }

  /** Writing a cell leaves no outer level empty that was not empty before. */
  lemma SetKeepsLevels<A, B, C, V>(m: Cube<A, B, C, V>, a: A, b: B, c: C, v: V)
    requires forall a' :: a' in m ==> m[a'] != map[]
    requires forall a', b' :: a' in m && b' in m[a'] ==> m[a'][b'] != map[]
    ensures var m' := Set(m, a, b, c, v);
      && (forall a' :: a' in m' ==> m'[a'] != map[])
      && (forall a', b' :: a' in m' && b' in m'[a'] ==> m'[a'][b'] != map[])
  {
    var m' := Set(m, a, b, c, v);
    assert b in m'[a] && c in m'[a][b];
    forall a', b' | a' in m' && b' in m'[a'] ensures m'[a'][b'] != map[] {
      if a' == a && b' == b {
        assert c in m'[a'][b'];
      } else {
        assert m'[a'][b'] == m[a'][b'];
      }
    }
  }
}
