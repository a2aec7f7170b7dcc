/**
 * The country revenue of `fetch_country_revenue`: rows are grouped by
 * country, day and plug, amounts and purchase counts adding up, and each
 * country's months become parallel per-plug lists over the sorted days the
 * country had rows for (no gap-filling).
 */
module CountryRevenue {
  import opened Wrappers
  import opened Calendar
  import opened DateOrder
  import opened Ordering
  import opened Dicts
  import opened Labels
  import Chunking
  import Nested

  /**
   * A row `[COUNTRY, POWERPLUG_TYPE, PURCHASE_DATE, SUM_AMOUNT_USD, COUNT]`;
   * amounts are in cents.
   */
  datatype RevenueRow = RevenueRow(country: Option<string>, plug: Option<string>, date: Option<CalDate>,
                                   amount: Option<int>, count: Option<int>)

  /** `{'revenue': ..., 'subs': ...}` */
  datatype RevCell = RevCell(revenue: int, subs: int)

  function AddCells(a: RevCell, b: RevCell): RevCell {
    RevCell(a.revenue + b.revenue, a.subs + b.subs)
  }

  /** A row that survived normalisation. */
  datatype RevEntry = RevEntry(country: string, date: CalDate, plug: string, cell: RevCell)

  /** `raw`: country -> day -> plug -> cell (the month part of the source's key is the day's month). */
  type Raw = map<string, map<CalDate, map<string, RevCell>>>

  /**
   * One month of one country (and, later, of the whole dashboard).  The
   * per-plug dicts `{p: [...] for p in PLUGS}` are kept in `PLUGS` order:
   * `revenue[k]` is the list of plug `PLUGS[k]`.
   */
  datatype RevenueMonth = RevenueMonth(dates: seq<CalDate>, revenue: seq<seq<int>>,
                                       subscriptions: seq<seq<int>>)

  type CountryData = Dict<string, Dict<MonthKey, RevenueMonth>>

  // ------------------------------------------------------------- grouping

  /** The row's country, day, plug and cell; None when the day is missing or the plug unknown. */
  function RevEntryOf(r: RevenueRow): (e: Option<RevEntry>)
    ensures e.Some? <==> r.date.Some? && Strip(Lower(OrText(r.plug, ""))) in PP_MAP
    ensures e.Some? ==> e.value.plug in PLUGS && e.value.date == r.date.value
    ensures e.Some? ==> e.value.country == RevenueCountry(r.country)
    ensures e.Some? ==> e.value.cell == RevCell(r.amount.GetOr(0), r.count.GetOr(0))
  {
    TablesMapIntoVocabulary();
    if r.date.None? then None
    else match Lookup(PP_MAP, Strip(Lower(OrText(r.plug, ""))))
      case None => None
      case Some(p) => Some(RevEntry(RevenueCountry(r.country), r.date.value, p, RevCell(r.amount.GetOr(0), r.count.GetOr(0))))
  }

  /**
   * The rows after normalisation, one entry (or None, a skipped row) per
   * row.  Whatever the labels, every kept entry is on a plug of `PLUGS` and
   * in a dashboard country or "Other", and a row without a day is skipped.
   */
  function Parse(rows: seq<RevenueRow>): (es: seq<Option<RevEntry>>)
    ensures |es| == |rows| && forall i :: 0 <= i < |rows| ==> es[i] == RevEntryOf(rows[i])
    ensures forall i :: 0 <= i < |es| && es[i].Some? ==>
              es[i].value.plug in PLUGS && (es[i].value.country in DASHBOARD_COUNTRIES || es[i].value.country == OTHER)
    ensures forall i :: 0 <= i < |rows| && rows[i].date.None? ==> es[i].None?
  {
    seq(|rows|, i requires 0 <= i < |rows| => RevEntryOf(rows[i]))
  }

  predicate Hits(e: Option<RevEntry>, c: string, d: CalDate, p: string) {
    e.Some? && e.value.country == c && e.value.date == d && e.value.plug == p
  }

  /** Reference semantics of the grouping: the sum of the cells of every entry for (c, d, p). */
  function RowSum(es: seq<Option<RevEntry>>, c: string, d: CalDate, p: string): RevCell
    decreases |es|
  {
    if es == [] then RevCell(0, 0)
    else
      var last := es[|es| - 1];
      AddCells(RowSum(es[..|es| - 1], c, d, p), if Hits(last, c, d, p) then last.value.cell else RevCell(0, 0))
  }

  predicate OnDay(e: Option<RevEntry>, c: string, d: CalDate) {
    e.Some? && e.value.country == c && e.value.date == d
  }

  /** Some entry is for country `c` on day `d`. */
  predicate SeenDay(es: seq<Option<RevEntry>>, c: string, d: CalDate)
    decreases |es|
  {
    if es == [] then false
    else OnDay(es[|es| - 1], c, d) || SeenDay(es[..|es| - 1], c, d)
  }

  /** `raw[c].get(d, {}).get(p, {'revenue': 0, 'subs': 0})` */
  function DayCell(raw: Raw, c: string, d: CalDate, p: string): RevCell {
    Nested.At(raw, c, d, p, RevCell(0, 0))
  }

  /** `raw` is what grouping the entries `es` leaves. */
  ghost predicate Represents(raw: Raw, es: seq<Option<RevEntry>>) {
    && (forall c, d, p :: DayCell(raw, c, d, p) == RowSum(es, c, d, p))
    && (forall c, d :: c in raw && d in raw[c] <==> SeenDay(es, c, d))
    && (forall c :: c in raw ==> raw[c] != map[])
  }

  /** `raw[country][(month_key, date_str)][pp]['revenue'] += ...` and `['subs'] += ...` */
  function AddRow(raw: Raw, e: RevEntry): Raw {
    Nested.Set(raw, e.country, e.date, e.plug, AddCells(DayCell(raw, e.country, e.date, e.plug), e.cell))
  }

  lemma AddRowCell(raw: Raw, e: RevEntry, c: string, d: CalDate, p: string)
    ensures DayCell(AddRow(raw, e), c, d, p)
      == AddCells(DayCell(raw, c, d, p), if Hits(Some(e), c, d, p) then e.cell else RevCell(0, 0))
  {
    Nested.SetAt(raw, e.country, e.date, e.plug, AddCells(DayCell(raw, e.country, e.date, e.plug), e.cell),
                 c, d, p, RevCell(0, 0));
  }

  lemma AddRowDays(raw: Raw, e: RevEntry, c: string, d: CalDate)
    ensures var raw' := AddRow(raw, e); c in raw' && d in raw'[c] <==> (c in raw && d in raw[c]) || OnDay(Some(e), c, d)
  {
    Nested.SetPairs(raw, e.country, e.date, e.plug, AddCells(DayCell(raw, e.country, e.date, e.plug), e.cell), c, d);
  }

  lemma AddRowKeepsRepresents(raw: Raw, es: seq<Option<RevEntry>>, e: Option<RevEntry>)
    requires Represents(raw, es)
    ensures Represents(if e.Some? then AddRow(raw, e.value) else raw, es + [e])
  {
    var es' := es + [e];
    assert es'[..|es'| - 1] == es;
    var raw' := if e.Some? then AddRow(raw, e.value) else raw;
    forall c, d, p ensures DayCell(raw', c, d, p) == RowSum(es', c, d, p) {
      if e.Some? { AddRowCell(raw, e.value, c, d, p); }
    }
    forall c, d ensures c in raw' && d in raw'[c] <==> SeenDay(es', c, d) {
      if e.Some? { AddRowDays(raw, e.value, c, d); }
    }
    forall c | c in raw' ensures raw'[c] != map[] {
      if e.Some? && c == e.value.country {
        AddRowDays(raw, e.value, c, e.value.date);
      }
    }
  }

  /**
   * The normalisation of one row in the row loop of `fetch_country_revenue`:
   * rows without a day are skipped, the country goes through `COUNTRY_MAP`
   * ("Other" on a miss) and the plug through `RevenuePlug`.
   */
  method NormaliseRow(r: RevenueRow) returns (e: Option<RevEntry>)
    ensures e == RevEntryOf(r)
  {
    if r.date.None? {
      return None;
    }
    var country := RevenueCountry(r.country);
    var pp := RevenuePlug(r.plug);
    if pp.None? {
      return None;
    }
    e := Some(RevEntry(country, r.date.value, pp.value, RevCell(r.amount.GetOr(0), r.count.GetOr(0))));
  }

  /** The row loop of `fetch_country_revenue`. */
  method GroupRevenueRows(rows: seq<RevenueRow>) returns (raw: Raw)
    ensures Represents(raw, Parse(rows))
  {
    ghost var es := Parse(rows);
    raw := map[];
    for i := 0 to |rows|
      invariant Represents(raw, es[..i])
    {
      var e := NormaliseRow(rows[i]);
      AddRowKeepsRepresents(raw, es[..i], e);
      assert es[..i + 1] == es[..i] + [e];
      if e.Some? {
        raw := AddRow(raw, e.value);
      }
    }
    assert es[..|rows|] == es;
  }

  // ------------------------------------------------- grouping: properties

  lemma {:induction false} SeenDayIffRow(es: seq<Option<RevEntry>>, c: string, d: CalDate)
    ensures SeenDay(es, c, d) <==> exists i :: 0 <= i < |es| && OnDay(es[i], c, d)
    decreases |es|
  {
    if es != [] {
      var init := es[..|es| - 1];
      SeenDayIffRow(init, c, d);
      if exists i :: 0 <= i < |init| && OnDay(init[i], c, d) {
        var i :| 0 <= i < |init| && OnDay(init[i], c, d);
        assert es[i] == init[i];
      }
      if exists i :: 0 <= i < |es| && OnDay(es[i], c, d) {
        var i :| 0 <= i < |es| && OnDay(es[i], c, d);
        if i < |init| { assert es[i] == init[i]; }
      }
    }
  }

  /**
   * The sums are additive over the rows, so it does not matter how the
   * rows were split into fetch windows.
   */
  lemma {:induction false} RowSumSplits(a: seq<Option<RevEntry>>, b: seq<Option<RevEntry>>, c: string, d: CalDate, p: string)
    ensures RowSum(a + b, c, d, p) == AddCells(RowSum(a, c, d, p), RowSum(b, c, d, p))
    decreases |b|
  {
    if b == [] {
      assert a + b == a;
    } else {
      var ab := a + b;
      var b' := b[..|b| - 1];
      var last := b[|b| - 1];
      var x := if Hits(last, c, d, p) then last.value.cell else RevCell(0, 0);
      assert ab[..|ab| - 1] == a + b';
      assert ab[|ab| - 1] == last;
      assert RowSum(ab, c, d, p) == AddCells(RowSum(a + b', c, d, p), x);
      assert RowSum(b, c, d, p) == AddCells(RowSum(b', c, d, p), x);
      RowSumSplits(a, b', c, d, p);
    }
  }

  /**
   * Two rows for one plug on one day add up (the trial path would keep
   * only the later row); CardioEntries gives two such rows.
   */
  lemma TwoRowsAdd(e1: Option<RevEntry>, e2: Option<RevEntry>, c: string, d: CalDate, p: string)
    requires Hits(e1, c, d, p) && Hits(e2, c, d, p)
    ensures RowSum([e1, e2], c, d, p) == AddCells(e1.value.cell, e2.value.cell)
  {
    RowSumSnoc([], e1, c, d, p);
    assert [] + [e1] == [e1];
    RowSumSnoc([e1], e2, c, d, p);
    assert [e1] + [e2] == [e1, e2];
  }

  lemma RowSumSnoc(es: seq<Option<RevEntry>>, e: Option<RevEntry>, c: string, d: CalDate, p: string)
    ensures RowSum(es + [e], c, d, p) == AddCells(RowSum(es, c, d, p), if Hits(e, c, d, p) then e.value.cell else RevCell(0, 0))
  {
    assert (es + [e])[..|es|] == es;
  }

  /**
   * Rows labelled 'cardio' and 'Cardio Adaptability' (here with no country,
   * so bucketed as "Other") both become "Cardio" entries.
   */
  lemma CardioEntries(d: CalDate)
    ensures RevEntryOf(RevenueRow(None, Some("cardio"), Some(d), Some(1000), Some(1)))
         == Some(RevEntry(OTHER, d, "Cardio", RevCell(1000, 1)))
    ensures RevEntryOf(RevenueRow(None, Some("Cardio Adaptability"), Some(d), Some(2500), Some(2)))
         == Some(RevEntry(OTHER, d, "Cardio", RevCell(2500, 2)))
  {
    NoCountryIsOther();
    CardioKeys();
    CardioIsKey();
    var r1 := RevenueRow(None, Some("cardio"), Some(d), Some(1000), Some(1));
    var r2 := RevenueRow(None, Some("Cardio Adaptability"), Some(d), Some(2500), Some(2));
    KnownEntry(r1, OTHER, "Cardio");
    KnownEntry(r2, OTHER, "Cardio");
  }

  lemma CardioIsKey()
    ensures "cardio" in PP_MAP && PP_MAP["cardio"] == "Cardio"
    ensures "cardio adaptability" in PP_MAP && PP_MAP["cardio adaptability"] == "Cardio"
  {
  }

  /** A row with a day whose country and plug normalise to `c` and `p`. */
  lemma KnownEntry(r: RevenueRow, c: string, p: string)
    requires r.date.Some? && RevenueCountry(r.country) == c
    requires Strip(Lower(OrText(r.plug, ""))) in PP_MAP && PP_MAP[Strip(Lower(OrText(r.plug, "")))] == p
    ensures RevEntryOf(r) == Some(RevEntry(c, r.date.value, p, RevCell(r.amount.GetOr(0), r.count.GetOr(0))))
  {
  }

  lemma NoCountryIsOther()
    ensures RevenueCountry(None) == OTHER
  {
    assert OrText(None, "") == "";
    assert Lower("") == "";
    assert "" !in COUNTRY_MAP;
  }

  lemma CardioKeys()
    ensures Strip(Lower(OrText(Some("cardio"), ""))) == "cardio"
    ensures Strip(Lower(OrText(Some("Cardio Adaptability"), ""))) == "cardio adaptability"
  {
    CardioKey();
    CardioAdaptabilityKey();
  }

  lemma CardioKey()
    ensures Strip(Lower(OrText(Some("cardio"), ""))) == "cardio"
  {
    assert OrText(Some("cardio"), "") == "cardio";
    assert Lower("cardio") == "cardio";
    StripUnspaced("cardio");
  }

  lemma CardioAdaptabilityKey()
    ensures Strip(Lower(OrText(Some("Cardio Adaptability"), ""))) == "cardio adaptability"
  {
    var raw := "Cardio Adaptability";
    assert OrText(Some(raw), "") == raw;
    var low := Lower(raw);
    assert low == "cardio adaptability";
    assert !IsSpace(low[0]) && !IsSpace(low[|low| - 1]);
    StripUnspaced(low);
  }

  // ------------------------------------------------------------- bucketing

  /** `raw[country].get((month_key, d), {}).get(p, ...)` for one country's days. */
  function CellAt(days: map<CalDate, map<string, RevCell>>, d: CalDate, p: string): RevCell {
    if d in days && p in days[d] then days[d][p] else RevCell(0, 0)
  }

  function DaysOfMonth(days: map<CalDate, map<string, RevCell>>, mk: MonthKey): set<CalDate> {
    set d | d in days && MonthOf(d) == mk
  }

  function MonthsOf(days: map<CalDate, map<string, RevCell>>): set<MonthKey> {
    set d | d in days :: MonthOf(d)
  }

  /** Every plug has a revenue list and a subscriptions list, one entry per date. */
  ghost predicate PlugColumns(m: RevenueMonth) {
    && |m.revenue| == |PLUGS| && |m.subscriptions| == |PLUGS|
    && (forall k :: 0 <= k < |PLUGS| ==> |m.revenue[k]| == |m.dates|)
    && (forall k :: 0 <= k < |PLUGS| ==> |m.subscriptions[k]| == |m.dates|)
  }

  /**
   * `m` is the bucket of month `mk` of one country: the country's days in
   * that month, sorted, with that day's cell for each plug.
   */
  ghost predicate BucketFor(m: RevenueMonth, days: map<CalDate, map<string, RevCell>>, mk: MonthKey) {
    && SortedBy(m.dates, DateLess) && Lists(m.dates, DaysOfMonth(days, mk))
    && PlugColumns(m)
    && (forall k, i :: 0 <= k < |PLUGS| && 0 <= i < |m.dates| ==>
          m.revenue[k][i] == CellAt(days, m.dates[i], PLUGS[k]).revenue)
    && (forall k, i :: 0 <= k < |PLUGS| && 0 <= i < |m.dates| ==>
          m.subscriptions[k][i] == CellAt(days, m.dates[i], PLUGS[k]).subs)
  }

  /** `for p in PLUGS: rev_by_pp[p].append(...); subs_by_pp[p].append(...)` for one day. */
  method AppendDay(rev: seq<seq<int>>, subs: seq<seq<int>>, days: map<CalDate, map<string, RevCell>>, d: CalDate)
    returns (rev': seq<seq<int>>, subs': seq<seq<int>>)
    requires |rev| == |PLUGS| && |subs| == |PLUGS|
    ensures |rev'| == |PLUGS| && |subs'| == |PLUGS|
    ensures forall k :: 0 <= k < |PLUGS| ==> rev'[k] == rev[k] + [CellAt(days, d, PLUGS[k]).revenue]
    ensures forall k :: 0 <= k < |PLUGS| ==> subs'[k] == subs[k] + [CellAt(days, d, PLUGS[k]).subs]
  {
    rev', subs' := rev, subs;
    for k := 0 to |PLUGS|
      invariant |rev'| == |PLUGS| && |subs'| == |PLUGS|
      invariant forall j :: 0 <= j < |PLUGS| ==>
        rev'[j] == rev[j] + (if j < k then [CellAt(days, d, PLUGS[j]).revenue] else [])
      invariant forall j :: 0 <= j < |PLUGS| ==>
        subs'[j] == subs[j] + (if j < k then [CellAt(days, d, PLUGS[j]).subs] else [])
    {
      var cell := CellAt(days, d, PLUGS[k]);
      rev' := rev'[k := rev'[k] + [cell.revenue]];
      subs' := subs'[k := subs'[k] + [cell.subs]];
    }
  }

  /** `{p: [] for p in PLUGS}` */
  function EmptyColumns(): (m: seq<seq<int>>)
    ensures |m| == |PLUGS| && forall k :: 0 <= k < |m| ==> m[k] == []
  {
    seq(|PLUGS|, k => [])
  }

  /** One month of one country. */
  method BucketMonth(days: map<CalDate, map<string, RevCell>>, mk: MonthKey) returns (m: RevenueMonth)
    ensures BucketFor(m, days, mk)
  {
    DateLessIsStrictTotalOrder();
    var dates := SortSet(DaysOfMonth(days, mk), DateLess);
    var rev := EmptyColumns();
    var subs := EmptyColumns();
    for i := 0 to |dates|
      invariant |rev| == |PLUGS| && |subs| == |PLUGS|
      invariant forall k :: 0 <= k < |PLUGS| ==> |rev[k]| == i && |subs[k]| == i
      invariant forall k, j :: 0 <= k < |PLUGS| && 0 <= j < i ==> rev[k][j] == CellAt(days, dates[j], PLUGS[k]).revenue
      invariant forall k, j :: 0 <= k < |PLUGS| && 0 <= j < i ==> subs[k][j] == CellAt(days, dates[j], PLUGS[k]).subs
    {
      rev, subs := AppendDay(rev, subs, days, dates[i]);
    }
    m := RevenueMonth(dates, rev, subs);
  }

  /** One country's months, ascending, each bucketed. */
  ghost predicate CountryBuckets(cm: Dict<MonthKey, RevenueMonth>, days: map<CalDate, map<string, RevCell>>) {
    && cm.Valid() && SortedBy(cm.keys, MonthLess) && Lists(cm.keys, MonthsOf(days))
    && forall mk :: mk in cm.entries ==> BucketFor(cm.entries[mk], days, mk)
  }

  ghost predicate MonthsSoFar(cm: Dict<MonthKey, RevenueMonth>, mks: seq<MonthKey>, j: int,
                              days: map<CalDate, map<string, RevCell>>) {
    && 0 <= j <= |mks|
    && cm.Valid() && cm.keys == mks[..j]
    && forall mk :: mk in cm.entries ==> BucketFor(cm.entries[mk], days, mk)
  }

  lemma MonthsStep(cm: Dict<MonthKey, RevenueMonth>, mks: seq<MonthKey>, j: int, m: RevenueMonth,
                   days: map<CalDate, map<string, RevCell>>)
    requires MonthsSoFar(cm, mks, j, days) && j < |mks| && SortedBy(mks, MonthLess)
    requires BucketFor(m, days, mks[j])
    ensures MonthsSoFar(cm.Put(mks[j], m), mks, j + 1, days)
  {
    MonthLessIsStrictTotalOrder();
    var mk := mks[j];
    assert mk !in cm.entries by {
      forall i | 0 <= i < j ensures mks[i] != mk { SortedDistinct(mks, MonthLess, i, j); }
    }
    assert mks[..j + 1] == mks[..j] + [mk];
  }

  method BucketCountry(days: map<CalDate, map<string, RevCell>>) returns (cm: Dict<MonthKey, RevenueMonth>)
    ensures CountryBuckets(cm, days)
  {
    MonthLessIsStrictTotalOrder();
    var mks := SortSet(MonthsOf(days), MonthLess);
    cm := EmptyDict();
    for j := 0 to |mks|
      invariant MonthsSoFar(cm, mks, j, days)
    {
      var m := BucketMonth(days, mks[j]);
      MonthsStep(cm, mks, j, m, days);
      cm := cm.Put(mks[j], m);
    }
    assert mks[..|mks|] == mks;
  }

  /** The output: countries in string order, each with its buckets. */
  ghost predicate CountryOutput(cr: CountryData, raw: Raw) {
    && cr.Valid() && SortedBy(cr.keys, StrLess) && Lists(cr.keys, raw.Keys)
    && forall c :: c in cr.entries ==> c in raw && CountryBuckets(cr.entries[c], raw[c])
  }

  ghost predicate CountriesSoFar(cr: CountryData, cs: seq<string>, k: int, raw: Raw) {
    && 0 <= k <= |cs|
    && cr.Valid() && cr.keys == cs[..k]
    && forall c :: c in cr.entries ==> c in raw && CountryBuckets(cr.entries[c], raw[c])
  }

  lemma CountriesStep(cr: CountryData, cs: seq<string>, k: int, cm: Dict<MonthKey, RevenueMonth>, raw: Raw)
    requires CountriesSoFar(cr, cs, k, raw) && k < |cs| && SortedBy(cs, StrLess)
    requires cs[k] in raw && CountryBuckets(cm, raw[cs[k]])
    ensures CountriesSoFar(cr.Put(cs[k], cm), cs, k + 1, raw)
  {
    StrLessIsStrictTotalOrder();
    var c := cs[k];
    assert c !in cr.entries by {
      forall i | 0 <= i < k ensures cs[i] != c { SortedDistinct(cs, StrLess, i, k); }
    }
    assert cs[..k + 1] == cs[..k] + [c];
  }

  /** The output loop of `fetch_country_revenue`. */
  method BuildCountryRevenue(raw: Raw) returns (cr: CountryData)
    ensures CountryOutput(cr, raw)
  {
    StrLessIsStrictTotalOrder();
    var cs := SortSet(raw.Keys, StrLess);
    cr := EmptyDict();
    for k := 0 to |cs|
      invariant CountriesSoFar(cr, cs, k, raw)
    {
      var cm := BucketCountry(raw[cs[k]]);
      CountriesStep(cr, cs, k, cm, raw);
      cr := cr.Put(cs[k], cm);
    }
    assert cs[..|cs|] == cs;
  }

  /**
   * `fetch_country_revenue` end to end: the two-week windows' rows (failed
   * windows skipped), grouped and bucketed; `{}` when no rows came back.
   */
  method FetchCountryRevenue(start: CalDate, today: CalDate, fetch: (CalDate, CalDate) -> Option<seq<RevenueRow>>)
    returns (cr: CountryData)
    ensures exists raw :: Represents(raw, Parse(Chunking.FetchSkipping(fetch, Chunking.TwoWeekWindows(start, today))))
                          && CountryOutput(cr, raw)
  {
    var rows := Chunking.FetchTwoWeekly(start, today, fetch);
    var raw := GroupRevenueRows(rows);
    if |rows| == 0 {
      cr := EmptyDict();
      assert Parse(rows) == [];
      assert forall c :: c !in raw;
      assert raw == map[];
      return;
    }
    cr := BuildCountryRevenue(raw);
  }

  // ------------------------------------------------------- end-to-end facts

  /**
   * In the output, a country's month lists exactly the days it had rows for,
   * and the cell of plug `p` on the `i`-th day is the sum of all that
   * country's rows for that day and plug.
   */
  lemma CountryCellIsRowSum(cr: CountryData, raw: Raw, es: seq<Option<RevEntry>>, c: string, mk: MonthKey, p: int, i: int)
    requires Represents(raw, es) && CountryOutput(cr, raw)
    requires c in cr.entries && mk in cr.entries[c].entries && 0 <= p < |PLUGS|
    requires 0 <= i < |cr.entries[c].entries[mk].dates|
    ensures var m := cr.entries[c].entries[mk];
      && MonthOf(m.dates[i]) == mk && SeenDay(es, c, m.dates[i])
      && m.revenue[p][i] == RowSum(es, c, m.dates[i], PLUGS[p]).revenue
      && m.subscriptions[p][i] == RowSum(es, c, m.dates[i], PLUGS[p]).subs
  {
    var m := cr.entries[c].entries[mk];
    var d := m.dates[i];
    assert d in DaysOfMonth(raw[c], mk);
    assert DayCell(raw, c, d, PLUGS[p]) == CellAt(raw[c], d, PLUGS[p]);
  }

  /** A country is listed exactly when some row was attributed to it. */
  lemma CountriesComeFromRows(cr: CountryData, raw: Raw, es: seq<Option<RevEntry>>, c: string)
    requires Represents(raw, es) && CountryOutput(cr, raw)
    ensures c in cr.keys <==> exists i :: 0 <= i < |es| && es[i].Some? && es[i].value.country == c
  {
    if c in cr.keys {
      var d :| d in raw[c];
      SeenDayIffRow(es, c, d);
    }
    if exists i :: 0 <= i < |es| && es[i].Some? && es[i].value.country == c {
      var i :| 0 <= i < |es| && es[i].Some? && es[i].value.country == c;
      SeenDayIffRow(es, c, es[i].value.date);
    }
  }
}
