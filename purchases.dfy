/**
 * `build_purchase_data`: the purchase counts are the revenue series'
 * subscription counts, month by month, on the same days.
 */
module Purchases {
  import opened Wrappers
  import opened Calendar
  import opened DateOrder
  import opened Ordering
  import opened Dicts
  import opened Labels
  import opened CountryRevenue
  import opened ShardAggregator

  /** `{'dates': [...], 'purchases': {p: [...] for p in PLUGS}}`, plugs in `PLUGS` order. */
  datatype PurchaseMonth = PurchaseMonth(dates: seq<CalDate>, purchases: seq<seq<int>>)

  type PurchaseData = Dict<MonthKey, PurchaseMonth>

  /** The loop over `revenue_data.items()`: one purchase month per revenue month, in the same order. */
  function BuildPurchaseData(rd: RevenueData): (pd: PurchaseData)
    ensures rd.Valid() ==> pd.Valid()
    ensures pd.keys == rd.keys && pd.entries.Keys == rd.entries.Keys
    ensures forall mk :: mk in pd.entries ==>
              pd.entries[mk].dates == rd.entries[mk].dates && pd.entries[mk].purchases == rd.entries[mk].subscriptions
  {
    Dict(rd.keys, map mk | mk in rd.entries :: PurchaseMonth(rd.entries[mk].dates, rd.entries[mk].subscriptions))
  }

  /**
   * End to end: the purchases of plug `k` on the `g`-th day of month `mk` are
   * the subscription counts of every normalised revenue row, of every country
   * ("Other" included), for that day and plug, added up.
   */
  lemma PurchasesAreRowCounts(rd: RevenueData, cr: CountryData, raw: Raw, es: seq<Option<RevEntry>>,
                              mk: MonthKey, k: int, g: int)
    requires Represents(raw, es) && CountryOutput(cr, raw) && Derived(rd, cr)
    requires mk in rd.entries && 0 <= k < |PLUGS| && 0 <= g < |rd.entries[mk].dates|
    ensures var m := BuildPurchaseData(rd).entries[mk];
      && MonthOf(m.dates[g]) == mk
      && m.purchases[k][g] == PlugDaySum(es, m.dates[g], PLUGS[k]).subs
  {
    ResultIsRowSum(rd, cr, raw, es, mk, k, g);
  }

  /**
   * The purchase series keeps the shape of the revenue series: ascending
   * days, one list per plug, one value per day.
   */
  lemma PurchasesHaveColumns(rd: RevenueData, cr: CountryData, mk: MonthKey)
    requires Derived(rd, cr) && mk in rd.entries
    ensures var m := BuildPurchaseData(rd).entries[mk];
      && SortedBy(m.dates, DateLess)
      && |m.purchases| == |PLUGS| && forall k :: 0 <= k < |PLUGS| ==> |m.purchases[k]| == |m.dates|
  {
    assert SummedMonth(rd.entries[mk], cr, mk, AllDays(cr, mk));
  }
}
