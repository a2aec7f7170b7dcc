/**
 * `fetch_user_overlap`: the Python parser of the overlap query's rows
 * (`qtype, key1, key2, val`), and the hard-coded figures it falls back to
 * when the query raises or returns no rows.
 */
module UserOverlap {
  import opened Wrappers
  import opened Dicts
  import opened Sums

  datatype OverlapRow = OverlapRow(qtype: Option<string>, key1: Option<string>, value: Option<int>)

  /** `{'combo': key1, 'users': val}` */
  datatype Combo = Combo(combo: Option<string>, users: int)

  /** `{'total_unique': ..., 'per_pp': {...}, 'overlap': {...}, 'top_combos': [...]}` */
  datatype OverlapData = OverlapData(totalUnique: int, perPlug: Dict<Option<string>, int>,
                                     overlap: Dict<Option<string>, int>, topCombos: seq<Combo>)

  const TOTAL: string := "total"
  const PP_UNIQUE: string := "pp_unique"
  const OVERLAP: string := "overlap"
  const COMBO: string := "combo"

  /** `int(row[3] or 0)` */
  function Val(r: OverlapRow): int {
    r.value.GetOr(0)
  }

  // ------------------------------------------------ what the parser computes

  /** Reference: the value of the last `total` row, if any. */
  function LastTotal(rows: seq<OverlapRow>): Option<int>
    decreases |rows|
  {
    if rows == [] then None
    else if rows[|rows| - 1].qtype == Some(TOTAL) then Some(Val(rows[|rows| - 1]))
    else LastTotal(rows[..|rows| - 1])
  }

  /** Reference: the dict `d[key1] = val` builds from the rows of type `q`, in order. */
  function Keyed(rows: seq<OverlapRow>, q: string): (d: Dict<Option<string>, int>)
    ensures d.Valid()
    decreases |rows|
  {
    if rows == [] then EmptyDict()
    else
      var r := rows[|rows| - 1];
      var d := Keyed(rows[..|rows| - 1], q);
      if r.qtype == Some(q) then d.Put(r.key1, Val(r)) else d
  }

  /** Reference: the `combo` rows, in order. */
  function Combos(rows: seq<OverlapRow>): (cs: seq<Combo>)
    ensures |cs| <= |rows|
    decreases |rows|
  {
    if rows == [] then []
    else
      var r := rows[|rows| - 1];
      Combos(rows[..|rows| - 1]) + (if r.qtype == Some(COMBO) then [Combo(r.key1, Val(r))] else [])
  }

  function Parsed(rows: seq<OverlapRow>): OverlapData {
    OverlapData(LastTotal(rows).GetOr(0), Keyed(rows, PP_UNIQUE), Keyed(rows, OVERLAP), Combos(rows))
  }

  // ---------------------------------------------------------- the parser

  /** The parse loop: `total` overwrites, `pp_unique` and `overlap` set a key, `combo` appends. */
  method ParseOverlap(rows: seq<OverlapRow>) returns (o: OverlapData)
    ensures o == Parsed(rows)
  {
    o := OverlapData(0, EmptyDict(), EmptyDict(), []);
    ghost var total: Option<int> := None;
    for i := 0 to |rows|
      invariant total == LastTotal(rows[..i]) && o.totalUnique == total.GetOr(0)
      invariant o.perPlug == Keyed(rows[..i], PP_UNIQUE) && o.overlap == Keyed(rows[..i], OVERLAP)
      invariant o.topCombos == Combos(rows[..i])
    {
      var row := rows[i];
      assert rows[..i + 1][..i] == rows[..i];
      var val := Val(row);
      if row.qtype == Some(TOTAL) {
        o := o.(totalUnique := val);
        total := Some(val);
      } else if row.qtype == Some(PP_UNIQUE) {
        o := o.(perPlug := o.perPlug.Put(row.key1, val));
      } else if row.qtype == Some(OVERLAP) {
        o := o.(overlap := o.overlap.Put(row.key1, val));
      } else if row.qtype == Some(COMBO) {
        o := o.(topCombos := o.topCombos + [Combo(row.key1, val)]);
      }
    }
    assert rows[..|rows|] == rows;
  }

  /** `fetch_user_overlap`: the query's rows (None when it raised); no rows falls back too. */
  method FetchUserOverlap(res: Option<seq<OverlapRow>>) returns (o: OverlapData)
    ensures RowsOf(res) == [] ==> o == FALLBACK
    ensures RowsOf(res) != [] ==> o == Parsed(RowsOf(res))
  {
    if res.None? {
      return FALLBACK;
    }
    var rows := res.value;
    if rows == [] {
      return FALLBACK;
    }
    o := ParseOverlap(rows);
  }

  // ------------------------------------------------- properties of the parse

  /** A row of type `q` for `k` that no later one overrides. */
  predicate LastRowFor(rows: seq<OverlapRow>, q: string, k: Option<string>, i: int) {
    && 0 <= i < |rows| && rows[i].qtype == Some(q) && rows[i].key1 == k
    && forall j :: i < j < |rows| ==> !(rows[j].qtype == Some(q) && rows[j].key1 == k)
  }

  /** Last write wins: the value under `k` is the last row's for it. */
  lemma {:induction false} KeyedIsLastRow(rows: seq<OverlapRow>, q: string, k: Option<string>, i: int)
    requires LastRowFor(rows, q, k, i)
    ensures k in Keyed(rows, q).entries && Keyed(rows, q).entries[k] == Val(rows[i])
    decreases |rows|
  {
    var n := |rows| - 1;
    if i < n {
      assert LastRowFor(rows[..n], q, k, i);
      KeyedIsLastRow(rows[..n], q, k, i);
    }
  }

  /** Exactly the keys some row of type `q` names are present. */
  lemma {:induction false} KeyedKeys(rows: seq<OverlapRow>, q: string, k: Option<string>)
    ensures k in Keyed(rows, q).entries <==> exists i :: 0 <= i < |rows| && rows[i].qtype == Some(q) && rows[i].key1 == k
    decreases |rows|
  {
    if rows != [] {
      var n := |rows| - 1;
      KeyedKeys(rows[..n], q, k);
      if k in Keyed(rows[..n], q).entries {
        var i :| 0 <= i < n && rows[..n][i].qtype == Some(q) && rows[..n][i].key1 == k;
        assert rows[i] == rows[..n][i];
      }
      if i :| 0 <= i < |rows| && rows[i].qtype == Some(q) && rows[i].key1 == k {
        if i < n { assert rows[..n][i] == rows[i]; }
      }
    }
  }

  /** The total is the last `total` row's value. */
  lemma {:induction false} LastTotalIsLastRow(rows: seq<OverlapRow>, i: int)
    requires 0 <= i < |rows| && rows[i].qtype == Some(TOTAL)
    requires forall j :: i < j < |rows| ==> rows[j].qtype != Some(TOTAL)
    ensures LastTotal(rows) == Some(Val(rows[i]))
    decreases |rows|
  {
    var n := |rows| - 1;
    if i < n {
      assert forall j :: i < j < n ==> rows[..n][j] == rows[j];
      LastTotalIsLastRow(rows[..n], i);
    }
  }

  /** Row `i` is a `combo` row giving `c`. */
  predicate ComboRow(rows: seq<OverlapRow>, i: int, c: Combo) {
    0 <= i < |rows| && rows[i].qtype == Some(COMBO) && c == Combo(rows[i].key1, Val(rows[i]))
  }

  /** The combos are the `combo` rows' and nothing else. */
  lemma {:induction false} CombosAreComboRows(rows: seq<OverlapRow>, c: Combo)
    ensures c in Combos(rows) <==> exists i :: ComboRow(rows, i, c)
    decreases |rows|
  {
    if rows != [] {
      var n := |rows| - 1;
      var init := rows[..n];
      assert Combos(rows) == Combos(init) + (if rows[n].qtype == Some(COMBO) then [Combo(rows[n].key1, Val(rows[n]))] else []);
      CombosAreComboRows(init, c);
      if c in Combos(init) {
        var i :| ComboRow(init, i, c);
        assert ComboRow(rows, i, c);
      }
      if i :| ComboRow(rows, i, c) {
        if i < n { assert ComboRow(init, i, c); }
      }
      if ComboRow(rows, n, c) {
        assert c in Combos(rows);
      }
    }
  }

  // ----------------------------------------------------------- the fallback

  function PlugCounts(): Dict<Option<string>, int> {
    Dict([Some("AFib"), Some("Cardio"), Some("CnO Pro"), Some("Respiratory"), Some("Tesla")],
         map[Some("AFib") := 2927, Some("Cardio") := 13003, Some("CnO Pro") := 24179,
             Some("Respiratory") := 8412, Some("Tesla") := 114])
  }

  function Histogram(): Dict<Option<string>, int> {
    Dict([Some("1"), Some("2"), Some("3"), Some("4"), Some("5")],
         map[Some("1") := 36297, Some("2") := 5281, Some("3") := 561, Some("4") := 22, Some("5") := 1])
  }

  /** `_hardcoded_user_overlap()` */
  const FALLBACK: OverlapData := OverlapData(
    42162, PlugCounts(), Histogram(),
    [Combo(Some("Cardio + CnO Pro"), 2007),
     Combo(Some("Cardio + Respiratory"), 1464),
     Combo(Some("CnO Pro + Respiratory"), 931),
     Combo(Some("Cardio + CnO Pro + Respiratory"), 399),
     Combo(Some("AFib + CnO Pro"), 364),
     Combo(Some("AFib + Respiratory"), 321),
     Combo(Some("AFib + Cardio"), 162)])

  /** The users of the histogram bucket named `k` ("1" .. "5"), weighted by how many plugs they hold. */
  function Weighted(h: Dict<Option<string>, int>, k: Option<string>): int {
    var n := if k == Some("1") then 1 else if k == Some("2") then 2 else if k == Some("3") then 3
             else if k == Some("4") then 4 else if k == Some("5") then 5 else 0;
    n * h.Get(k, 0)
  }

  /**
   * The fallback figures agree with each other: the histogram counts every
   * unique user once, and counting each user once per plug held gives the
   * naive per-plug sum.  The top combos are listed by descending user count.
   */
  lemma FallbackIsConsistent()
    ensures FALLBACK.perPlug.Valid() && FALLBACK.overlap.Valid()
    ensures SumBy(FALLBACK.overlap.keys, k => FALLBACK.overlap.Get(k, 0)) == FALLBACK.totalUnique
    ensures SumBy(FALLBACK.overlap.keys, k => Weighted(FALLBACK.overlap, k)) ==
            SumBy(FALLBACK.perPlug.keys, k => FALLBACK.perPlug.Get(k, 0))
    ensures forall i, j :: 0 <= i < j < |FALLBACK.topCombos| ==> FALLBACK.topCombos[i].users >= FALLBACK.topCombos[j].users
  {
    HistogramCountsUsers();
    HistogramWeighs();
    PlugCountsSum();
  }

  lemma HistogramCountsUsers()
    ensures Histogram().Valid()
    ensures SumBy(Histogram().keys, k => Histogram().Get(k, 0)) == 42162
  {
    var h := Histogram();
    SumOfFive(h.keys, k => h.Get(k, 0));
  }

  lemma HistogramWeighs()
    ensures SumBy(Histogram().keys, k => Weighted(Histogram(), k)) == 48635
  {
    var h := Histogram();
    SumOfFive(h.keys, k => Weighted(h, k));
  }

  lemma PlugCountsSum()
    ensures PlugCounts().Valid()
    ensures SumBy(PlugCounts().keys, k => PlugCounts().Get(k, 0)) == 48635
  {
    var p := PlugCounts();
    SumOfFive(p.keys, k => p.Get(k, 0));
  }

  lemma SumOfFive<T>(xs: seq<T>, f: T -> int)
    requires |xs| == 5
    ensures SumBy(xs, f) == f(xs[0]) + f(xs[1]) + f(xs[2]) + f(xs[3]) + f(xs[4])
  {
    assert xs[..1][..0] == [] && xs[..1][0] == xs[0];
    assert SumBy(xs[..1], f) == f(xs[0]);
    assert xs[..2][..1] == xs[..1] && xs[..2][1] == xs[1];
    assert SumBy(xs[..2], f) == SumBy(xs[..1], f) + f(xs[1]);
    assert xs[..3][..2] == xs[..2] && xs[..3][2] == xs[2];
    assert SumBy(xs[..3], f) == SumBy(xs[..2], f) + f(xs[2]);
    assert xs[..4][..3] == xs[..3] && xs[..4][3] == xs[3];
    assert SumBy(xs[..4], f) == SumBy(xs[..3], f) + f(xs[3]);
    assert xs[..4] == xs[..|xs| - 1];
  }
}
