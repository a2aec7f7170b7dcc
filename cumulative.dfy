/**
 * `fetch_cumulative_users`: the Python parser of the cumulative-users
 * query's rows (`qtype, month, key1, val`) into `{month: {key: count}}`,
 * and its fallback, which is the empty dict.  The row's `qtype` is read
 * but not used: a `pp` row and a `total` row land in the same month dict,
 * under their own keys (a plug, or `_total`).
 */
module CumulativeUsers {
  import opened Wrappers
  import opened Dicts

  datatype CumRow = CumRow(qtype: Option<string>, month: Option<string>, key: Option<string>, value: Option<int>)

  /** month -> key -> count, in first-insertion order at both levels. */
  type Cumulative = Dict<Option<string>, Dict<Option<string>, int>>

  /** `int(row[3] or 0)` */
  function Val(r: CumRow): int {
    r.value.GetOr(0)
  }

  /** Both levels list each of their keys once. */
  ghost predicate WellFormed(c: Cumulative) {
    c.Valid() && forall m :: m in c.entries ==> c.entries[m].Valid()
  }

  /** `cumulative[month][key] = val` on a `defaultdict(dict)`. */
  function Store(c: Cumulative, r: CumRow): Cumulative {
    c.Put(r.month, c.Get(r.month, EmptyDict()).Put(r.key, Val(r)))
  }

  /** Reference: the rows stored one after another, from the empty dict. */
  function Cum(rows: seq<CumRow>): Cumulative
    decreases |rows|
  {
    if rows == [] then EmptyDict() else Store(Cum(rows[..|rows| - 1]), rows[|rows| - 1])
  }

  // ---------------------------------------------------------- the parser

  /** The parse loop over the rows. */
  method ParseCumulative(rows: seq<CumRow>) returns (c: Cumulative)
    ensures c == Cum(rows)
  {
    c := EmptyDict();
    for i := 0 to |rows|
      invariant c == Cum(rows[..i])
    {
      assert rows[..i + 1][..i] == rows[..i];
      var row := rows[i];
      var inner := c.Get(row.month, EmptyDict());
      c := c.Put(row.month, inner.Put(row.key, Val(row)));
    }
    assert rows[..|rows|] == rows;
  }

  /** `_hardcoded_cumulative_users()` */
  function Fallback(): Cumulative {
    EmptyDict()
  }

  /**
   * `fetch_cumulative_users`: the query's rows (None when it raised).  The
   * fallback for a failed or empty query is what parsing no rows gives.
   */
  method FetchCumulative(res: Option<seq<CumRow>>) returns (c: Cumulative)
    ensures c == Cum(RowsOf(res))
    ensures RowsOf(res) == [] ==> c.entries == map[]
  {
    if res.None? {
      return Fallback();
    }
    var rows := res.value;
    if rows == [] {
      return Fallback();
    }
    c := ParseCumulative(rows);
  }

  // ------------------------------------------------- properties of the parse

  /** Both levels stay well formed, whatever the rows. */
  lemma {:induction false} CumWellFormed(rows: seq<CumRow>)
    ensures WellFormed(Cum(rows))
    decreases |rows|
  {
    if rows != [] {
      CumWellFormed(rows[..|rows| - 1]);
      StoreWellFormed(Cum(rows[..|rows| - 1]), rows[|rows| - 1]);
    }
  }

  /** Storing a row keeps both levels well formed, and adds its month. */
  lemma StoreWellFormed(c: Cumulative, r: CumRow)
    requires WellFormed(c)
    ensures WellFormed(Store(c, r))
    ensures Store(c, r).entries.Keys == c.entries.Keys + {r.month}
  {
  }

  /** Row `i` is for `m` and `k`. */
  predicate RowFor(rows: seq<CumRow>, i: int, m: Option<string>, k: Option<string>) {
    0 <= i < |rows| && rows[i].month == m && rows[i].key == k
  }

  /** A month is listed exactly when some row names it. */
  lemma {:induction false} CumMonths(rows: seq<CumRow>, m: Option<string>)
    ensures m in Cum(rows).entries <==> exists i :: 0 <= i < |rows| && rows[i].month == m
    decreases |rows|
  {
    if rows != [] {
      var n := |rows| - 1;
      var init := rows[..n];
      CumMonths(init, m);
      assert Cum(rows) == Store(Cum(init), rows[n]);
      StoreMonth(Cum(init), rows[n], m);
      if m in Cum(init).entries {
        var i :| 0 <= i < n && init[i].month == m;
        assert rows[i].month == m;
      }
      if i :| 0 <= i < |rows| && rows[i].month == m {
        if i < n { assert init[i].month == m; }
      }
    }
  }

  /** Storing a row lists its month and keeps the months listed before. */
  lemma StoreMonth(c: Cumulative, r: CumRow, m: Option<string>)
    ensures m in Store(c, r).entries <==> m in c.entries || m == r.month
  {
  }

  /** What one stored row does to a (month, key) pair. */
  lemma StoreAt(c: Cumulative, r: CumRow, m: Option<string>, k: Option<string>)
    ensures Has(Store(c, r), m, k) <==> (Has(c, m, k) || (m == r.month && k == r.key))
    ensures m == r.month && k == r.key ==> Store(c, r).entries[m].entries[k] == Val(r)
    ensures !(m == r.month && k == r.key) && Has(c, m, k) ==>
            Store(c, r).entries[m].entries[k] == c.entries[m].entries[k]
  {
  }

  /** A count is stored for `k` in month `m`. */
  predicate Has(c: Cumulative, m: Option<string>, k: Option<string>) {
    m in c.entries && k in c.entries[m].entries
  }

  /** A (month, key) pair is present exactly when some row names both. */
  lemma {:induction false} CumKeys(rows: seq<CumRow>, m: Option<string>, k: Option<string>)
    ensures Has(Cum(rows), m, k) <==> exists i :: RowFor(rows, i, m, k)
    decreases |rows|
  {
    if rows != [] {
      var n := |rows| - 1;
      var init := rows[..n];
      CumKeys(init, m, k);
      assert Cum(rows) == Store(Cum(init), rows[n]);
      StoreAt(Cum(init), rows[n], m, k);
      if Has(Cum(init), m, k) {
        var i :| RowFor(init, i, m, k);
        assert RowFor(rows, i, m, k);
      }
      if i :| RowFor(rows, i, m, k) {
        if i < n { assert RowFor(init, i, m, k); }
      }
      if RowFor(rows, n, m, k) {
        assert m == rows[n].month && k == rows[n].key;
      }
    }
  }

  /** Row `i` is for `m` and `k`, and no later row is. */
  predicate LastRowFor(rows: seq<CumRow>, i: int, m: Option<string>, k: Option<string>) {
    RowFor(rows, i, m, k) && forall j :: i < j < |rows| ==> !RowFor(rows, j, m, k)
  }

  /** Last write wins: the count under (month, key) is the last such row's value. */
  lemma {:induction false} CumIsLastRow(rows: seq<CumRow>, i: int, m: Option<string>, k: Option<string>)
    requires LastRowFor(rows, i, m, k)
    ensures Has(Cum(rows), m, k) && Cum(rows).entries[m].entries[k] == Val(rows[i])
    decreases |rows|
  {
    var n := |rows| - 1;
    var init := rows[..n];
    var c := Cum(init);
    assert Cum(rows) == Store(c, rows[n]);
    if i < n {
      forall j | i < j < n ensures !RowFor(init, j, m, k) {
        assert init[j] == rows[j] && !RowFor(rows, j, m, k);
      }
      assert !RowFor(rows, n, m, k);
      CumIsLastRow(init, i, m, k);
    }
    StoreAt(c, rows[n], m, k);
  }
}
