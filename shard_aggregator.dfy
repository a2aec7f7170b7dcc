/**
 * `derive_revenue_from_country_data`: the dashboard-wide revenue series,
 * obtained from the per-country months of `fetch_country_revenue`.  Each
 * month lists the sorted union of the days the countries list for it, and
 * the value of a plug on a day is the sum of what the countries list for
 * that plug on that day.
 */
module ShardAggregator {
  import opened Wrappers
  import opened Calendar
  import opened DateOrder
  import opened Ordering
  import opened Dicts
  import opened Labels
  import opened CountryRevenue
  import opened Sums

  /** `revenue_data`: month -> one month of every plug. */
  type RevenueData = Dict<MonthKey, RevenueMonth>

  /** Every dict of the input is a well-formed dict (as every Python dict is). */
  ghost predicate DictsValid(cr: CountryData) {
    cr.Valid() && forall c :: c in cr.entries ==> cr.entries[c].Valid()
  }

  // ------------------------------------------------------ collecting days

  /** Month `mk` of a country lists day `d`. */
  predicate HasDay(cm: Dict<MonthKey, RevenueMonth>, mk: MonthKey, d: CalDate) {
    mk in cm.entries && d in cm.entries[mk].dates
  }

  /** `month_dates[mk]` holds `d`. */
  predicate Holds(md: map<MonthKey, set<CalDate>>, mk: MonthKey, d: CalDate) {
    mk in md && d in md[mk]
  }

  /** No month without a day: a `defaultdict` entry is only made by `.add(d)`. */
  ghost predicate NoEmptyMonth(md: map<MonthKey, set<CalDate>>) {
    forall mk :: mk in md ==> md[mk] != {}
  }

  /** The days some country lists for month `mk`. */
  ghost function AllDays(cr: CountryData, mk: MonthKey): set<CalDate> {
    set c, d | c in cr.entries && mk in cr.entries[c].entries && d in cr.entries[c].entries[mk].dates :: d
  }

  /** The months for which some country lists at least one day. */
  ghost function DayMonths(cr: CountryData): set<MonthKey> {
    set c, mk | c in cr.entries && mk in cr.entries[c].entries && cr.entries[c].entries[mk].dates != [] :: mk
  }

  /** `for d in mdata.get('dates', []): month_dates[month_key].add(d)` */
  method AddMonthDays(md: map<MonthKey, set<CalDate>>, mk: MonthKey, ds: seq<CalDate>)
    returns (md': map<MonthKey, set<CalDate>>)
    requires NoEmptyMonth(md)
    ensures NoEmptyMonth(md')
    ensures forall mk', d :: Holds(md', mk', d) <==> Holds(md, mk', d) || (mk' == mk && d in ds)
  {
    md' := md;
    for l := 0 to |ds|
      invariant NoEmptyMonth(md')
      invariant forall mk', d :: Holds(md', mk', d) <==> Holds(md, mk', d) || (mk' == mk && d in ds[..l])
    {
      var before: set<CalDate> := if mk in md' then md'[mk] else {};
      ghost var prev := md';
      md' := md'[mk := before + {ds[l]}];
      assert ds[..l + 1] == ds[..l] + [ds[l]];
      forall mk', d ensures Holds(md', mk', d) <==> Holds(prev, mk', d) || (mk' == mk && d == ds[l]) {
      }
    }
    assert ds[..|ds|] == ds;
  }

  /** The months of one country. */
  method AddCountryDays(md: map<MonthKey, set<CalDate>>, cm: Dict<MonthKey, RevenueMonth>)
    returns (md': map<MonthKey, set<CalDate>>)
    requires NoEmptyMonth(md) && cm.Valid()
    ensures NoEmptyMonth(md')
    ensures forall mk, d :: Holds(md', mk, d) <==> Holds(md, mk, d) || HasDay(cm, mk, d)
  {
    md' := md;
    for j := 0 to |cm.keys|
      invariant NoEmptyMonth(md')
      invariant forall mk, d :: Holds(md', mk, d) <==> Holds(md, mk, d) || (mk in cm.keys[..j] && HasDay(cm, mk, d))
    {
      var mk := cm.keys[j];
      assert mk in cm.entries;
      md' := AddMonthDays(md', mk, cm.entries[mk].dates);
      assert cm.keys[..j + 1] == cm.keys[..j] + [mk];
    }
    assert cm.keys[..|cm.keys|] == cm.keys;
  }

  /** The first loop of `derive_revenue_from_country_data`. */
  method CollectMonthDates(cr: CountryData) returns (md: map<MonthKey, set<CalDate>>)
    requires DictsValid(cr)
    ensures md.Keys == DayMonths(cr)
    ensures forall mk :: mk in md ==> md[mk] == AllDays(cr, mk)
  {
    md := map[];
    for i := 0 to |cr.keys|
      invariant NoEmptyMonth(md)
      invariant forall mk, d :: Holds(md, mk, d) <==> exists j :: 0 <= j < i && HasDay(cr.entries[cr.keys[j]], mk, d)
    {
      assert cr.keys[i] in cr.entries;
      md := AddCountryDays(md, cr.entries[cr.keys[i]]);
    }
    CollectedDays(cr, md);
  }

  lemma CollectedDays(cr: CountryData, md: map<MonthKey, set<CalDate>>)
    requires DictsValid(cr) && NoEmptyMonth(md)
    requires forall mk, d :: Holds(md, mk, d) <==> exists j :: 0 <= j < |cr.keys| && HasDay(cr.entries[cr.keys[j]], mk, d)
    ensures md.Keys == DayMonths(cr)
    ensures forall mk :: mk in md ==> md[mk] == AllDays(cr, mk)
  {
    forall mk, d ensures Holds(md, mk, d) <==> d in AllDays(cr, mk) {
      if d in AllDays(cr, mk) {
        var c :| c in cr.entries && HasDay(cr.entries[c], mk, d);
        var j :| 0 <= j < |cr.keys| && cr.keys[j] == c;
        assert HasDay(cr.entries[cr.keys[j]], mk, d);
      }
    }
    forall mk ensures mk in md <==> mk in DayMonths(cr) {
      if mk in md {
        var d :| d in md[mk];
        assert Holds(md, mk, d);
        var c :| c in cr.entries && HasDay(cr.entries[c], mk, d);
        assert cr.entries[c].entries[mk].dates != [];
      }
      if mk in DayMonths(cr) {
        var c :| c in cr.entries && mk in cr.entries[c].entries && cr.entries[c].entries[mk].dates != [];
        var d := cr.entries[c].entries[mk].dates[0];
        assert d in AllDays(cr, mk);
      }
    }
  }

  // ------------------------------------------------------------- summing

  /** `cdata['revenue'].get(p, [])` for the plug at position `k`. */
  function Column(cols: seq<seq<int>>, k: int): seq<int> {
    if 0 <= k < |cols| then cols[k] else []
  }

  /** `cols.get(p, ...)[ci] if ci < len(cols.get(p, [])) else 0` */
  function ValueAt(cols: seq<seq<int>>, k: int, ci: int): (v: int)
    ensures 0 <= ci < |Column(cols, k)| ==> v == cols[k][ci]
    ensures !(0 <= ci < |Column(cols, k)|) ==> v == 0
  {
    if 0 <= ci < |Column(cols, k)| then Column(cols, k)[ci] else 0
  }

  function Cols(m: RevenueMonth, subs: bool): seq<seq<int>> {
    if subs then m.subscriptions else m.revenue
  }

  /** What the first `n` days of month `m` add to plug `k` on day `d`. */
  function MonthShare(m: RevenueMonth, subs: bool, k: int, d: CalDate, n: nat): int
    requires n <= |m.dates|
  {
    if n == 0 then 0
    else MonthShare(m, subs, k, d, n - 1) + (if m.dates[n - 1] == d then ValueAt(Cols(m, subs), k, n - 1) else 0)
  }

  /** What one country adds to plug `k` on day `d` of month `mk`. */
  function CountryShare(cm: Dict<MonthKey, RevenueMonth>, mk: MonthKey, subs: bool, k: int, d: CalDate): int {
    if mk in cm.entries then MonthShare(cm.entries[mk], subs, k, d, |cm.entries[mk].dates|) else 0
  }

  /** What country `c` adds, nothing when it is not in the input. */
  function Contribution(cr: CountryData, c: string, mk: MonthKey, subs: bool, k: int, d: CalDate): int {
    if c in cr.entries then CountryShare(cr.entries[c], mk, subs, k, d) else 0
  }

  /** The sum over the countries `cs`, taken in that order. */
  function Total(cr: CountryData, cs: seq<string>, mk: MonthKey, subs: bool, k: int, d: CalDate): int
    decreases |cs|
  {
    if cs == [] then 0
    else Total(cr, cs[..|cs| - 1], mk, subs, k, d) + Contribution(cr, cs[|cs| - 1], mk, subs, k, d)
  }

  /** `{d: i for i, d in enumerate(dates)}` */
  function IndexMap(dates: seq<CalDate>): (m: map<CalDate, int>)
    ensures m.Keys == set d | d in dates
    ensures forall d :: d in m ==> 0 <= m[d] < |dates| && dates[m[d]] == d
    decreases |dates|
  {
    if dates == [] then map[]
    else IndexMap(dates[..|dates| - 1])[dates[|dates| - 1] := |dates| - 1]
  }

  /** `for p in PLUGS: rev_by_pp[p][gi] += ...; subs_by_pp[p][gi] += ...` */
  method AddDay(rev: array2<int>, subs: array2<int>, gi: int, m: RevenueMonth, ci: int)
    requires rev != subs
    requires rev.Length0 == |PLUGS| && subs.Length0 == |PLUGS| && rev.Length1 == subs.Length1
    requires 0 <= gi < rev.Length1
    modifies rev, subs
    ensures forall k, g :: 0 <= k < |PLUGS| && 0 <= g < rev.Length1 ==>
      rev[k, g] == old(rev[k, g]) + (if g == gi then ValueAt(m.revenue, k, ci) else 0)
    ensures forall k, g :: 0 <= k < |PLUGS| && 0 <= g < subs.Length1 ==>
      subs[k, g] == old(subs[k, g]) + (if g == gi then ValueAt(m.subscriptions, k, ci) else 0)
  {
    for k := 0 to |PLUGS|
      invariant forall k', g :: 0 <= k' < |PLUGS| && 0 <= g < rev.Length1 ==>
        rev[k', g] == old(rev[k', g]) + (if g == gi && k' < k then ValueAt(m.revenue, k', ci) else 0)
      invariant forall k', g :: 0 <= k' < |PLUGS| && 0 <= g < subs.Length1 ==>
        subs[k', g] == old(subs[k', g]) + (if g == gi && k' < k then ValueAt(m.subscriptions, k', ci) else 0)
    {
      rev[k, gi] := rev[k, gi] + ValueAt(m.revenue, k, ci);
      subs[k, gi] := subs[k, gi] + ValueAt(m.subscriptions, k, ci);
    }
  }

  /**
   * Day `ci` of one country's month: when `date_idx_map` has the day, its
   * values are added at that day's global index.
   */
  method AddCountryDay(rev: array2<int>, subs: array2<int>, dates: seq<CalDate>, idx: map<CalDate, int>,
                       m: RevenueMonth, ci: int)
    requires rev != subs
    requires rev.Length0 == |PLUGS| && subs.Length0 == |PLUGS| && rev.Length1 == |dates| && subs.Length1 == |dates|
    requires Distinct(dates) && idx == IndexMap(dates) && 0 <= ci < |m.dates|
    modifies rev, subs
    ensures forall k, g :: 0 <= k < |PLUGS| && 0 <= g < |dates| ==>
      rev[k, g] == old(rev[k, g]) + (if dates[g] == m.dates[ci] then ValueAt(m.revenue, k, ci) else 0)
    ensures forall k, g :: 0 <= k < |PLUGS| && 0 <= g < |dates| ==>
      subs[k, g] == old(subs[k, g]) + (if dates[g] == m.dates[ci] then ValueAt(m.subscriptions, k, ci) else 0)
  {
    var cd := m.dates[ci];
    if cd in idx {
      var gi := idx[cd];
      assert forall g :: 0 <= g < |dates| && g != gi ==> dates[g] != dates[gi];
      AddDay(rev, subs, gi, m, ci);
    } else {
      assert forall g :: 0 <= g < |dates| ==> dates[g] != cd;
    }
  }

  /** One country's month, day by day. */
  method AddCountry(rev: array2<int>, subs: array2<int>, dates: seq<CalDate>, idx: map<CalDate, int>, m: RevenueMonth)
    requires rev != subs
    requires rev.Length0 == |PLUGS| && subs.Length0 == |PLUGS| && rev.Length1 == |dates| && subs.Length1 == |dates|
    requires Distinct(dates) && idx == IndexMap(dates)
    modifies rev, subs
    ensures forall k, g :: 0 <= k < |PLUGS| && 0 <= g < |dates| ==>
      rev[k, g] == old(rev[k, g]) + MonthShare(m, false, k, dates[g], |m.dates|)
    ensures forall k, g :: 0 <= k < |PLUGS| && 0 <= g < |dates| ==>
      subs[k, g] == old(subs[k, g]) + MonthShare(m, true, k, dates[g], |m.dates|)
  {
    for ci := 0 to |m.dates|
      invariant forall k, g :: 0 <= k < |PLUGS| && 0 <= g < |dates| ==>
        rev[k, g] == old(rev[k, g]) + MonthShare(m, false, k, dates[g], ci)
      invariant forall k, g :: 0 <= k < |PLUGS| && 0 <= g < |dates| ==>
        subs[k, g] == old(subs[k, g]) + MonthShare(m, true, k, dates[g], ci)
    {
      AddCountryDay(rev, subs, dates, idx, m, ci);
    }
  }

  /** The rows of a two-dimensional array, as lists. */
  function Rows(a: array2<int>): (r: seq<seq<int>>)
    reads a
    ensures |r| == a.Length0
    ensures forall k :: 0 <= k < a.Length0 ==> |r[k]| == a.Length1
    ensures forall k, g :: 0 <= k < a.Length0 && 0 <= g < a.Length1 ==> r[k][g] == a[k, g]
  {
    seq(a.Length0, k reads a => seq(a.Length1, g reads a => if 0 <= k < a.Length0 && 0 <= g < a.Length1 then a[k, g] else 0))
  }

  /** The month `mk` of the result, over the given set of days. */
  ghost predicate SummedMonth(m: RevenueMonth, cr: CountryData, mk: MonthKey, days: set<CalDate>) {
    && SortedBy(m.dates, DateLess) && Lists(m.dates, days)
    && PlugColumns(m)
    && (forall k, g :: 0 <= k < |PLUGS| && 0 <= g < |m.dates| ==>
          m.revenue[k][g] == Total(cr, cr.keys, mk, false, k, m.dates[g]))
    && (forall k, g :: 0 <= k < |PLUGS| && 0 <= g < |m.dates| ==>
          m.subscriptions[k][g] == Total(cr, cr.keys, mk, true, k, m.dates[g]))
  }

  /** The body of the month loop: sorted days, zeroed lists, then every country added in turn. */
  method SumMonth(cr: CountryData, mk: MonthKey, days: set<CalDate>) returns (m: RevenueMonth)
    requires DictsValid(cr)
    ensures SummedMonth(m, cr, mk, days)
  {
    DateLessIsStrictTotalOrder();
    var dates := SortSet(days, DateLess);
    assert Distinct(dates) by {
      forall i, j | 0 <= i < j < |dates| ensures dates[i] != dates[j] { SortedDistinct(dates, DateLess, i, j); }
    }
    var rev := new int[|PLUGS|, |dates|]((k, g) => 0);
    var subs := new int[|PLUGS|, |dates|]((k, g) => 0);
    SumCountries(cr, mk, dates, rev, subs);
    m := RevenueMonth(dates, Rows(rev), Rows(subs));
  }

  /** The country loop of one month, into lists that start at zero. */
  method SumCountries(cr: CountryData, mk: MonthKey, dates: seq<CalDate>, rev: array2<int>, subs: array2<int>)
    requires DictsValid(cr) && Distinct(dates) && rev != subs
    requires rev.Length0 == |PLUGS| && subs.Length0 == |PLUGS| && rev.Length1 == |dates| && subs.Length1 == |dates|
    requires forall k, g :: 0 <= k < |PLUGS| && 0 <= g < |dates| ==> rev[k, g] == 0 && subs[k, g] == 0
    modifies rev, subs
    ensures forall k, g :: 0 <= k < |PLUGS| && 0 <= g < |dates| ==> rev[k, g] == Total(cr, cr.keys, mk, false, k, dates[g])
    ensures forall k, g :: 0 <= k < |PLUGS| && 0 <= g < |dates| ==> subs[k, g] == Total(cr, cr.keys, mk, true, k, dates[g])
  {
    var idx := IndexMap(dates);
    for i := 0 to |cr.keys|
      invariant forall k, g :: 0 <= k < |PLUGS| && 0 <= g < |dates| ==>
        rev[k, g] == Total(cr, cr.keys[..i], mk, false, k, dates[g])
      invariant forall k, g :: 0 <= k < |PLUGS| && 0 <= g < |dates| ==>
        subs[k, g] == Total(cr, cr.keys[..i], mk, true, k, dates[g])
    {
      var c := cr.keys[i];
      assert c in cr.entries;
      assert cr.keys[..i + 1][..i] == cr.keys[..i];
      var months := cr.entries[c];
      if mk in months.entries {
        AddCountry(rev, subs, dates, idx, months.entries[mk]);
      }
    }
    assert cr.keys[..|cr.keys|] == cr.keys;
  }

  /** The result: the months with days, ascending, each summed over all countries. */
  ghost predicate Derived(rd: RevenueData, cr: CountryData) {
    && rd.Valid() && SortedBy(rd.keys, MonthLess) && Lists(rd.keys, DayMonths(cr))
    && forall mk :: mk in rd.entries ==> SummedMonth(rd.entries[mk], cr, mk, AllDays(cr, mk))
  }

  ghost predicate DerivedSoFar(rd: RevenueData, cr: CountryData, mks: seq<MonthKey>, j: int) {
    && 0 <= j <= |mks|
    && rd.Valid() && rd.keys == mks[..j]
    && forall mk :: mk in rd.entries ==> SummedMonth(rd.entries[mk], cr, mk, AllDays(cr, mk))
  }

  lemma DerivedStep(rd: RevenueData, cr: CountryData, mks: seq<MonthKey>, j: int, m: RevenueMonth)
    requires DerivedSoFar(rd, cr, mks, j) && j < |mks| && SortedBy(mks, MonthLess)
    requires SummedMonth(m, cr, mks[j], AllDays(cr, mks[j]))
    ensures DerivedSoFar(rd.Put(mks[j], m), cr, mks, j + 1)
  {
    MonthLessIsStrictTotalOrder();
    var mk := mks[j];
    assert mk !in rd.entries by {
      forall i | 0 <= i < j ensures mks[i] != mk { SortedDistinct(mks, MonthLess, i, j); }
    }
    assert mks[..j + 1] == mks[..j] + [mk];
  }

  /** `derive_revenue_from_country_data`. */
  method DeriveRevenue(cr: CountryData) returns (rd: RevenueData)
    requires DictsValid(cr)
    ensures Derived(rd, cr)
  {
    var md := CollectMonthDates(cr);
    MonthLessIsStrictTotalOrder();
    var mks := SortSet(md.Keys, MonthLess);
    rd := EmptyDict();
    for j := 0 to |mks|
      invariant DerivedSoFar(rd, cr, mks, j)
    {
      var m := SumMonth(cr, mks[j], md[mks[j]]);
      DerivedStep(rd, cr, mks, j, m);
      rd := rd.Put(mks[j], m);
    }
    assert mks[..|mks|] == mks;
  }

  // ------------------------------------------------------------ properties

  lemma {:induction false} TotalIsSum(cr: CountryData, cs: seq<string>, mk: MonthKey, subs: bool, k: int, d: CalDate)
    ensures Total(cr, cs, mk, subs, k, d) == SumBy(cs, c => Contribution(cr, c, mk, subs, k, d))
    decreases |cs|
  {
    if cs != [] {
      TotalIsSum(cr, cs[..|cs| - 1], mk, subs, k, d);
    }
  }

  /** The order in which the countries are visited does not change any value. */
  lemma TotalPermutationInvariant(cr: CountryData, cs: seq<string>, cs': seq<string>,
                                  mk: MonthKey, subs: bool, k: int, d: CalDate)
    requires multiset(cs) == multiset(cs')
    ensures Total(cr, cs, mk, subs, k, d) == Total(cr, cs', mk, subs, k, d)
  {
    TotalIsSum(cr, cs, mk, subs, k, d);
    TotalIsSum(cr, cs', mk, subs, k, d);
    SumByPermutation(cs, cs', c => Contribution(cr, c, mk, subs, k, d));
  }

  /** A day a month does not list gets nothing from it. */
  lemma {:induction false} MonthShareAbsent(m: RevenueMonth, subs: bool, k: int, d: CalDate, n: nat)
    requires n <= |m.dates| && d !in m.dates[..n]
    ensures MonthShare(m, subs, k, d, n) == 0
  {
    if n > 0 {
      assert m.dates[..n - 1] <= m.dates[..n];
      assert m.dates[n - 1] in m.dates[..n];
      MonthShareAbsent(m, subs, k, d, n - 1);
    }
  }

  /** In a month listing each day once, the `i`-th day gets the `i`-th value. */
  lemma {:induction false} MonthShareAtIndex(m: RevenueMonth, subs: bool, k: int, i: int, n: nat)
    requires n <= |m.dates| && Distinct(m.dates) && 0 <= i < n
    ensures MonthShare(m, subs, k, m.dates[i], n) == ValueAt(Cols(m, subs), k, i)
  {
    if i == n - 1 {
      assert m.dates[i] !in m.dates[..n - 1];
      MonthShareAbsent(m, subs, k, m.dates[i], n - 1);
    } else {
      assert m.dates[n - 1] != m.dates[i];
      MonthShareAtIndex(m, subs, k, i, n - 1);
    }
  }

  /** A country adds, on a day its month lists, the value it lists for that day. */
  lemma ContributionListed(cr: CountryData, c: string, mk: MonthKey, subs: bool, k: int, i: int)
    requires c in cr.entries && mk in cr.entries[c].entries
    requires Distinct(cr.entries[c].entries[mk].dates) && 0 <= i < |cr.entries[c].entries[mk].dates|
    ensures var m := cr.entries[c].entries[mk];
      Contribution(cr, c, mk, subs, k, m.dates[i]) == ValueAt(Cols(m, subs), k, i)
  {
    var m := cr.entries[c].entries[mk];
    MonthShareAtIndex(m, subs, k, i, |m.dates|);
  }

  /** A country that does not list the day adds nothing to it. */
  lemma ContributionUnlisted(cr: CountryData, c: string, mk: MonthKey, subs: bool, k: int, d: CalDate)
    requires !(c in cr.entries && mk in cr.entries[c].entries && d in cr.entries[c].entries[mk].dates)
    ensures Contribution(cr, c, mk, subs, k, d) == 0
  {
    if c in cr.entries && mk in cr.entries[c].entries {
      var m := cr.entries[c].entries[mk];
      assert m.dates[..|m.dates|] == m.dates;
      MonthShareAbsent(m, subs, k, d, |m.dates|);
    }
  }

  /**
   * The months of country output all list at least one day, so the months
   * of the result are all the countries' months.
   */
  lemma OutputMonthsAreUnion(cr: CountryData, raw: Raw)
    requires CountryOutput(cr, raw)
    ensures DayMonths(cr) == set c, mk | c in cr.entries && mk in cr.entries[c].entries :: mk
  {
    forall c, mk | c in cr.entries && mk in cr.entries[c].entries
      ensures cr.entries[c].entries[mk].dates != []
    {
      var days := raw[c];
      assert mk in MonthsOf(days);
      var d :| d in days && MonthOf(d) == mk;
      assert d in DaysOfMonth(days, mk);
    }
  }

  // ------------------------------------------------ from the rows to the result

  function Pick(cell: RevCell, subs: bool): int {
    if subs then cell.subs else cell.revenue
  }

  predicate DayPlug(e: Option<RevEntry>, d: CalDate, p: string) {
    e.Some? && e.value.date == d && e.value.plug == p
  }

  /** Reference: the cells of every entry, of any country, for day `d` and plug `p`, added up. */
  function PlugDaySum(es: seq<Option<RevEntry>>, d: CalDate, p: string): RevCell
    decreases |es|
  {
    if es == [] then RevCell(0, 0)
    else
      var last := es[|es| - 1];
      AddCells(PlugDaySum(es[..|es| - 1], d, p), if DayPlug(last, d, p) then last.value.cell else RevCell(0, 0))
  }

  /** Summing the per-country sums over countries that cover all entries gives the per-day sum. */
  lemma {:induction false} CountrySumsArePlugDaySum(es: seq<Option<RevEntry>>, cs: seq<string>, d: CalDate, p: string, subs: bool)
    requires Distinct(cs)
    requires forall i :: 0 <= i < |es| && DayPlug(es[i], d, p) ==> es[i].value.country in cs
    ensures SumBy(cs, c => Pick(RowSum(es, c, d, p), subs)) == Pick(PlugDaySum(es, d, p), subs)
    decreases |es|
  {
    if es != [] {
      var init := es[..|es| - 1];
      assert forall i :: 0 <= i < |init| ==> init[i] == es[i];
      CountrySumsArePlugDaySum(init, cs, d, p, subs);
      LastEntryShare(es, cs, d, p, subs);
    } else {
      SumByZero(cs, c => Pick(RowSum(es, c, d, p), subs));
    }
  }

  /** The last entry adds its cell to the sum over the countries once, for its own country. */
  lemma LastEntryShare(es: seq<Option<RevEntry>>, cs: seq<string>, d: CalDate, p: string, subs: bool)
    requires es != [] && Distinct(cs)
    requires DayPlug(es[|es| - 1], d, p) ==> es[|es| - 1].value.country in cs
    ensures var last := es[|es| - 1];
      SumBy(cs, c => Pick(RowSum(es, c, d, p), subs))
        == SumBy(cs, c => Pick(RowSum(es[..|es| - 1], c, d, p), subs))
           + (if DayPlug(last, d, p) then Pick(last.value.cell, subs) else 0)
  {
    var init := es[..|es| - 1];
    var last := es[|es| - 1];
    var g := c => if Hits(last, c, d, p) then Pick(last.value.cell, subs) else 0;
    SumByAdd(cs, c => Pick(RowSum(init, c, d, p), subs), g, c => Pick(RowSum(es, c, d, p), subs));
    if DayPlug(last, d, p) {
      SumByOne(cs, g, last.value.country);
    } else {
      SumByZero(cs, g);
    }
  }

  /** A day of month `mk` in the result is a day some country listed, so it lies in `mk`. */
  lemma ResultDayInMonth(cr: CountryData, raw: Raw, mk: MonthKey, d: CalDate)
    requires CountryOutput(cr, raw) && d in AllDays(cr, mk)
    ensures MonthOf(d) == mk
  {
    var c, m :| c in cr.entries && mk in cr.entries[c].entries && m == cr.entries[c].entries[mk] && d in m.dates;
    assert BucketFor(m, raw[c], mk);
    assert d in DaysOfMonth(raw[c], mk);
  }

  /** What a country of the output adds on a day of month `mk` is the sum of its rows for that day. */
  lemma ContributionIsRowSum(cr: CountryData, raw: Raw, es: seq<Option<RevEntry>>, c: string, mk: MonthKey,
                             subs: bool, k: int, d: CalDate)
    requires Represents(raw, es) && CountryOutput(cr, raw)
    requires c in cr.entries && 0 <= k < |PLUGS| && MonthOf(d) == mk
    ensures Contribution(cr, c, mk, subs, k, d) == Pick(RowSum(es, c, d, PLUGS[k]), subs)
  {
    var cm := cr.entries[c];
    var days := raw[c];
    assert DayCell(raw, c, d, PLUGS[k]) == CellAt(days, d, PLUGS[k]);
    if mk in cm.entries && d in cm.entries[mk].dates {
      var m := cm.entries[mk];
      var i :| 0 <= i < |m.dates| && m.dates[i] == d;
      DateLessIsStrictTotalOrder();
      assert Distinct(m.dates) by {
        forall a, b | 0 <= a < b < |m.dates| ensures m.dates[a] != m.dates[b] { SortedDistinct(m.dates, DateLess, a, b); }
      }
      ContributionListed(cr, c, mk, subs, k, i);
    } else {
      ContributionUnlisted(cr, c, mk, subs, k, d);
    }
  }

  /** The countries of the output cover every entry. */
  lemma OutputCoversEntries(cr: CountryData, raw: Raw, es: seq<Option<RevEntry>>, d: CalDate, p: string)
    requires Represents(raw, es) && CountryOutput(cr, raw)
    ensures Distinct(cr.keys)
    ensures forall i :: 0 <= i < |es| && DayPlug(es[i], d, p) ==> es[i].value.country in cr.keys
  {
    forall i | 0 <= i < |es| && DayPlug(es[i], d, p) ensures es[i].value.country in cr.keys {
      SeenDayIffRow(es, es[i].value.country, d);
    }
  }

  /**
   * End to end: in the dashboard-wide month `mk`, the value of plug `k` on
   * the `g`-th day is the sum of every normalised row, of every country
   * ("Other" included), for that day and plug.
   */
  lemma ResultIsRowSum(rd: RevenueData, cr: CountryData, raw: Raw, es: seq<Option<RevEntry>>,
                       mk: MonthKey, k: int, g: int)
    requires Represents(raw, es) && CountryOutput(cr, raw) && Derived(rd, cr)
    requires mk in rd.entries && 0 <= k < |PLUGS| && 0 <= g < |rd.entries[mk].dates|
    ensures var m := rd.entries[mk];
      && MonthOf(m.dates[g]) == mk
      && m.revenue[k][g] == PlugDaySum(es, m.dates[g], PLUGS[k]).revenue
      && m.subscriptions[k][g] == PlugDaySum(es, m.dates[g], PLUGS[k]).subs
  {
    var m := rd.entries[mk];
    var d := m.dates[g];
    ResultDayInMonth(cr, raw, mk, d);
    OutputCoversEntries(cr, raw, es, d, PLUGS[k]);
    TotalIsRowSum(cr, raw, es, mk, false, k, d);
    TotalIsRowSum(cr, raw, es, mk, true, k, d);
  }

  lemma TotalIsRowSum(cr: CountryData, raw: Raw, es: seq<Option<RevEntry>>, mk: MonthKey, subs: bool, k: int, d: CalDate)
    requires Represents(raw, es) && CountryOutput(cr, raw)
    requires 0 <= k < |PLUGS| && MonthOf(d) == mk
    requires Distinct(cr.keys)
    requires forall i :: 0 <= i < |es| && DayPlug(es[i], d, PLUGS[k]) ==> es[i].value.country in cr.keys
    ensures Total(cr, cr.keys, mk, subs, k, d) == Pick(PlugDaySum(es, d, PLUGS[k]), subs)
  {
    TotalIsSum(cr, cr.keys, mk, subs, k, d);
    forall i | 0 <= i < |cr.keys|
      ensures Contribution(cr, cr.keys[i], mk, subs, k, d) == Pick(RowSum(es, cr.keys[i], d, PLUGS[k]), subs)
    {
      ContributionIsRowSum(cr, raw, es, cr.keys[i], mk, subs, k, d);
    }
    SumByAgree(cr.keys, c => Contribution(cr, c, mk, subs, k, d), c => Pick(RowSum(es, c, d, PLUGS[k]), subs));
    CountrySumsArePlugDaySum(es, cr.keys, d, PLUGS[k], subs);
  }

  // ----------------------------------------------- the example of two countries

  const SEP1: CalDate := Date(2025, 9, 1)
  const SEP2: CalDate := Date(2025, 9, 2)
  const SEP3: CalDate := Date(2025, 9, 3)
  const SEPTEMBER: MonthKey := MonthKey(2025, 9)

  /** Lists for every plug, `first` for AFib and zeros for the others. */
  function AFibOnly(first: seq<int>): seq<seq<int>> {
    [first, [0, 0], [0, 0], [0, 0], [0, 0]]
  }

  /** USA lists 09-01 and 09-02 with 10 and 20; India lists 09-02 and 09-03 with 5 and 5. */
  function TwoCountries(): CountryData {
    var usa := RevenueMonth([SEP1, SEP2], AFibOnly([10, 20]), AFibOnly([0, 0]));
    var india := RevenueMonth([SEP2, SEP3], AFibOnly([5, 5]), AFibOnly([0, 0]));
    Dict(["India", "USA"], map["India" := Dict([SEPTEMBER], map[SEPTEMBER := india]),
                               "USA" := Dict([SEPTEMBER], map[SEPTEMBER := usa])])
  }

  lemma TwoCountriesDays()
    ensures AllDays(TwoCountries(), SEPTEMBER) == {SEP1, SEP2, SEP3}
  {
    var cr := TwoCountries();
    var usa := cr.entries["USA"].entries[SEPTEMBER].dates;
    var india := cr.entries["India"].entries[SEPTEMBER].dates;
    assert usa == [SEP1, SEP2] && india == [SEP2, SEP3];
    assert cr.entries.Keys == {"India", "USA"};
    forall d ensures d in AllDays(cr, SEPTEMBER) <==> d in usa || d in india {
      if d in usa { assert HasDay(cr.entries["USA"], SEPTEMBER, d); }
      if d in india { assert HasDay(cr.entries["India"], SEPTEMBER, d); }
    }
  }

  /** The AFib value of the three days. */
  lemma TwoCountriesTotals()
    ensures Total(TwoCountries(), ["India", "USA"], SEPTEMBER, false, 0, SEP1) == 10
    ensures Total(TwoCountries(), ["India", "USA"], SEPTEMBER, false, 0, SEP2) == 25
    ensures Total(TwoCountries(), ["India", "USA"], SEPTEMBER, false, 0, SEP3) == 5
  {
    var cr := TwoCountries();
    assert ["India", "USA"][..1] == ["India"];
    ContributionListed(cr, "USA", SEPTEMBER, false, 0, 0);
    ContributionListed(cr, "USA", SEPTEMBER, false, 0, 1);
    ContributionListed(cr, "India", SEPTEMBER, false, 0, 0);
    ContributionListed(cr, "India", SEPTEMBER, false, 0, 1);
    ContributionUnlisted(cr, "USA", SEPTEMBER, false, 0, SEP3);
    ContributionUnlisted(cr, "India", SEPTEMBER, false, 0, SEP1);
  }

  /** The two countries give the union of their days and the sum on the shared day. */
  lemma TwoCountriesMerge(m: RevenueMonth)
    requires SummedMonth(m, TwoCountries(), SEPTEMBER, AllDays(TwoCountries(), SEPTEMBER))
    ensures m.dates == [SEP1, SEP2, SEP3]
    ensures m.revenue[0] == [10, 25, 5]
  {
    TwoCountriesDays();
    DateLessIsStrictTotalOrder();
    SortedUnique(m.dates, [SEP1, SEP2, SEP3], DateLess);
    TwoCountriesTotals();
  }
}
