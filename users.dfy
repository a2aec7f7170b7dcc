/**
 * The active-user figures of `fetch_user_data` and `fetch_country_user_data`:
 * paid subscribers come from one query, users on trial from one query per
 * trial window (`max(0, trials - converted)`), and every plug reports
 * `users = paid + on_trial`.
 */
module ActiveUsers {
  import opened Wrappers
  import opened Ordering
  import opened Dicts
  import opened Labels
  import opened Sums

  // ------------------------------------------------------------- arithmetic

  /** `max(0, trials - converted)`: trial starts that have not converted yet. */
  function OnTrial(trials: int, converted: int): (n: int)
    ensures n >= 0 && n >= trials - converted
    ensures n == 0 || n == trials - converted
  {
    if trials - converted > 0 then trials - converted else 0
  }

  /** `{'users': ..., 'paid': ..., 'on_trial': ...}` (the gender percentages are not modelled). */
  datatype UserCell = UserCell(users: int, paid: int, onTrial: int)

  /** The cell of a plug: `users` is `paid + on_trial`. */
  function Cell(paid: int, onTrial: int): UserCell {
    UserCell(paid + onTrial, paid, onTrial)
  }

  /** One entry of `user_data`: a plug's cell, or the `_total` entry, whose 'users' is 0. */
  datatype UserEntry = PlugEntry(cell: UserCell) | TotalEntry(users: int)

  const TOTAL_KEY: string := "_total"

  /** `d.get(k, 0)`. */
  function Get(m: map<string, int>, k: string): int {
    if k in m then m[k] else 0
  }

  lemma PlugsDistinct()
    ensures Distinct(PLUGS) && TOTAL_KEY !in PLUGS && OTHER !in PLUGS
  {
  }

  // ---------------------------------------------------------- trial windows

  /** `trial_windows`: raw plug label and longest trial in days, in the source's order. */
  const TRIAL_WINDOWS: seq<(string, int)> :=
    [("cno_pro_n_plus", 30), ("afib", 7), ("cardio", 7), ("respiratory", 7), ("tesla", 7)]

  /** The plugs the windows are for. */
  const TRIAL_PLUGS: seq<string> := ["CnO Pro", "AFib", "Cardio", "Respiratory", "Tesla"]

  /** The query of window `w`, given the fetch as a function of label and window length. */
  function WindowRows<R>(fetch: (string, int) -> Option<seq<R>>, w: int): Option<seq<R>>
    requires 0 <= w < |TRIAL_WINDOWS|
  {
    fetch(TRIAL_WINDOWS[w].0, TRIAL_WINDOWS[w].1)
  }

  /** `PP_MAP.get(pp_raw)` is the window's plug for every window, so `if not pp: continue` never skips one. */
  lemma TrialWindowPlug(w: int)
    requires 0 <= w < |TRIAL_WINDOWS|
    ensures Lookup(PP_MAP, TRIAL_WINDOWS[w].0) == Some(TRIAL_PLUGS[w])
  {
    if w < 2 { TrialWindowPlugBelow2(w); } else { TrialWindowPlugFrom2(w); }
  }

  lemma TrialWindowPlugBelow2(w: int)
    requires 0 <= w < 2
    ensures Lookup(PP_MAP, TRIAL_WINDOWS[w].0) == Some(TRIAL_PLUGS[w])
  {
    if w == 0 { assert "cno_pro_n_plus" in PP_MAP; } else { assert "afib" in PP_MAP; }
  }

  lemma TrialWindowPlugFrom2(w: int)
    requires 2 <= w < |TRIAL_WINDOWS|
    ensures Lookup(PP_MAP, TRIAL_WINDOWS[w].0) == Some(TRIAL_PLUGS[w])
  {
    if w == 2 { assert "cardio" in PP_MAP; }
    else if w == 3 { assert "respiratory" in PP_MAP; }
    else { assert "tesla" in PP_MAP; }
  }

  /** The window of `PLUGS[k]`. */
  function WindowOf(k: int): (w: int)
    requires 0 <= k < |PLUGS|
    ensures 0 <= w < |TRIAL_WINDOWS| && TRIAL_PLUGS[w] == PLUGS[k]
  {
    [1, 2, 0, 3, 4][k]
  }

  /** Each plug has exactly one trial window, and every window is for a plug. */
  lemma WindowsMatchPlugs()
    ensures Distinct(TRIAL_PLUGS)
    ensures forall w :: 0 <= w < |TRIAL_PLUGS| ==> TRIAL_PLUGS[w] in PLUGS
    ensures forall k, w :: 0 <= k < |PLUGS| && 0 <= w < |TRIAL_PLUGS| ==> (TRIAL_PLUGS[w] == PLUGS[k] <==> w == WindowOf(k))
  {
  }

  // -------------------------------------------------------- fetch_user_data

  /** A row `[POWERPLUG_TYPE, COUNT]` of the active-paid query. */
  datatype PaidRow = PaidRow(plug: Option<string>, count: Option<int>)

  /** The row counts for plug `p`: its label is `p` itself, one of `PLUGS`. */
  predicate PaidFor(r: PaidRow, p: string) {
    p in PLUGS && r.plug == Some(p)
  }

  /** Reference: the count of the last row for plug `p`, if there is one. */
  function LastPaid(rows: seq<PaidRow>, p: string): Option<int>
    decreases |rows|
  {
    if rows == [] then None
    else if PaidFor(rows[|rows| - 1], p) then Some(rows[|rows| - 1].count.GetOr(0))
    else LastPaid(rows[..|rows| - 1], p)
  }

  /** A plug has a paid count exactly when some row is for it. */
  lemma {:induction false} LastPaidExists(rows: seq<PaidRow>, p: string)
    ensures LastPaid(rows, p).Some? <==> exists i :: 0 <= i < |rows| && PaidFor(rows[i], p)
    decreases |rows|
  {
    if rows != [] {
      var init := rows[..|rows| - 1];
      LastPaidExists(init, p);
      assert forall i :: 0 <= i < |init| ==> init[i] == rows[i];
    }
  }

  /** A later row for the same plug overwrites an earlier one: the count is the last row's. */
  lemma {:induction false} LastPaidIsLastRow(rows: seq<PaidRow>, p: string, i: int)
    requires 0 <= i < |rows| && PaidFor(rows[i], p)
    requires forall j :: i < j < |rows| ==> !PaidFor(rows[j], p)
    ensures LastPaid(rows, p) == Some(rows[i].count.GetOr(0))
    decreases |rows|
  {
    if i < |rows| - 1 {
      var init := rows[..|rows| - 1];
      assert !PaidFor(rows[|rows| - 1], p);
      assert forall j :: i < j < |init| ==> init[j] == rows[j];
      LastPaidIsLastRow(init, p, i);
    }
  }

  /** The paid loop: `if pp in PLUGS: paid_by_pp[pp] = int(r[1] or 0)`. */
  method ParsePaid(rows: seq<PaidRow>) returns (paid: map<string, int>)
    ensures forall p :: (p in paid <==> LastPaid(rows, p).Some?) && (p in paid ==> paid[p] == LastPaid(rows, p).value)
  {
    paid := map[];
    for i := 0 to |rows|
      invariant forall p :: (p in paid <==> LastPaid(rows[..i], p).Some?) &&
                           (p in paid ==> paid[p] == LastPaid(rows[..i], p).value)
    {
      assert rows[..i + 1][..i] == rows[..i];
      var r := rows[i];
      if r.plug.Some? && r.plug.value in PLUGS {
        paid := paid[r.plug.value := r.count.GetOr(0)];
      }
    }
    assert rows[..|rows|] == rows;
  }

  /** The first row `[POWERPLUG_TYPE, NUM_TRIAL_USERS, SUM_CONVERTED_USERS]` of a trial query. */
  datatype TrialRow = TrialRow(plug: Option<string>, trials: Option<int>, converted: Option<int>)

  /** A window's users on trial: from its first row, and nothing when the query raised or came back empty. */
  function FirstOnTrial(res: Option<seq<TrialRow>>): (r: Option<int>)
    ensures r.Some? <==> RowsOf(res) != []
    ensures r.Some? ==> r.value >= 0
  {
    if res.Some? && res.value != [] then Some(OnTrial(res.value[0].trials.GetOr(0), res.value[0].converted.GetOr(0)))
    else None
  }

  /** The trial loop of `fetch_user_data`: one query per window. */
  method CollectOnTrial(fetch: (string, int) -> Option<seq<TrialRow>>) returns (onTrial: map<string, int>)
    ensures forall k :: 0 <= k < |PLUGS| ==>
      var r := FirstOnTrial(WindowRows(fetch, WindowOf(k)));
      (PLUGS[k] in onTrial <==> r.Some?) && (PLUGS[k] in onTrial ==> onTrial[PLUGS[k]] == r.value)
    ensures forall p :: p in onTrial ==> p in PLUGS
  {
    WindowsMatchPlugs();
    onTrial := map[];
    for w := 0 to |TRIAL_WINDOWS|
      invariant forall v :: 0 <= v < |TRIAL_WINDOWS| ==>
        var r := FirstOnTrial(WindowRows(fetch, v));
        (TRIAL_PLUGS[v] in onTrial <==> v < w && r.Some?) && (TRIAL_PLUGS[v] in onTrial ==> onTrial[TRIAL_PLUGS[v]] == r.value)
      invariant forall p :: p in onTrial ==> p in TRIAL_PLUGS[..w]
    {
      TrialWindowPlug(w);
      var pp := Lookup(PP_MAP, TRIAL_WINDOWS[w].0).value;
      var res := fetch(TRIAL_WINDOWS[w].0, TRIAL_WINDOWS[w].1);
      if res.Some? && res.value != [] {
        var row := res.value[0];
        onTrial := onTrial[pp := OnTrial(row.trials.GetOr(0), row.converted.GetOr(0))];
      }
      assert TRIAL_PLUGS[..w + 1] == TRIAL_PLUGS[..w] + [pp];
    }
  }

  /** The output loop of `fetch_user_data`: one cell per plug, in `PLUGS` order, then `_total`. */
  method BuildUserData(paid: map<string, int>, onTrial: map<string, int>) returns (ud: Dict<string, UserEntry>)
    ensures ud.Valid() && ud.keys == PLUGS + [TOTAL_KEY]
    ensures forall k :: 0 <= k < |PLUGS| ==> ud.entries[PLUGS[k]] == PlugEntry(Cell(Get(paid, PLUGS[k]), Get(onTrial, PLUGS[k])))
    ensures ud.entries[TOTAL_KEY] == TotalEntry(0)
  {
    PlugsDistinct();
    ud := EmptyDict();
    for k := 0 to |PLUGS|
      invariant ud.Valid() && ud.keys == PLUGS[..k]
      invariant forall j :: 0 <= j < k ==> ud.entries[PLUGS[j]] == PlugEntry(Cell(Get(paid, PLUGS[j]), Get(onTrial, PLUGS[j])))
    {
      var pp := PLUGS[k];
      assert pp !in ud.entries;
      ud := ud.Put(pp, PlugEntry(Cell(Get(paid, pp), Get(onTrial, pp))));
      assert PLUGS[..k + 1] == PLUGS[..k] + [pp];
    }
    assert PLUGS[..|PLUGS|] == PLUGS;
    ud := ud.Put(TOTAL_KEY, TotalEntry(0));
  }

  /**
   * `fetch_user_data`: per plug, the count of the last paid row for it and
   * the users on trial of its window; the paid query's failure leaves every
   * plug with 0 paid.
   */
  method FetchUserData(paidRes: Option<seq<PaidRow>>, fetch: (string, int) -> Option<seq<TrialRow>>)
    returns (ud: Dict<string, UserEntry>)
    ensures ud.Valid() && ud.keys == PLUGS + [TOTAL_KEY] && ud.entries[TOTAL_KEY] == TotalEntry(0)
    ensures forall k :: 0 <= k < |PLUGS| ==>
      ud.entries[PLUGS[k]] == PlugEntry(Cell(LastPaid(RowsOf(paidRes), PLUGS[k]).GetOr(0),
                                            FirstOnTrial(WindowRows(fetch, WindowOf(k))).GetOr(0)))
  {
    var paid := ParsePaid(RowsOf(paidRes));
    var onTrial := CollectOnTrial(fetch);
    ud := BuildUserData(paid, onTrial);
  }

  // ------------------------------------------------ fetch_country_user_data

  /** A row `[COUNTRY, POWERPLUG_TYPE, COUNT]` of the paid-by-country query. */
  datatype CountryPaidRow = CountryPaidRow(country: Option<string>, plug: Option<string>, count: Option<int>)

  /** A row `[POWERPLUG_TYPE, COUNTRY, NUM_TRIAL_USERS, SUM_CONVERTED_USERS]` of a trial-by-country query. */
  datatype CountryTrialRow = CountryTrialRow(plug: Option<string>, country: Option<string>,
                                             trials: Option<int>, converted: Option<int>)

  /**
   * The country a row is counted under: `COUNTRY_MAP.get(...)` of its raw
   * country when that hits, and "Other" otherwise (the source's
   * `if country ... elif ...` / `else`).  The grouping below is stated for
   * any such bucketing `bucket`; `fetch_country_user_data` uses this one.
   */
  function UserBucket(raw: Option<string>): string {
    match UserCountry(raw)
    case Some(c) => c
    case None => OTHER
  }

  /** A bucket is a dashboard country, or "Other" exactly when the lookup misses. */
  lemma UserBucketIsDashboard(raw: Option<string>)
    ensures UserBucket(raw) == OTHER <==> UserCountry(raw).None?
    ensures UserBucket(raw) != OTHER ==> UserBucket(raw) in DASHBOARD_COUNTRIES
  {
    OtherIsNoDashboardCountry();
  }

  /** A row reduced to what the grouping uses: its bucket, its plug label and its value. */
  datatype Entry = Entry(country: string, plug: Option<string>, value: int)

  /** The paid rows with their countries bucketed and `int(r[2] or 0)` taken. */
  function PaidEntries(bucket: Option<string> -> string, rows: seq<CountryPaidRow>): (es: seq<Entry>)
    ensures |es| == |rows|
    ensures forall i :: 0 <= i < |rows| ==> es[i] == Entry(bucket(rows[i].country), rows[i].plug, rows[i].count.GetOr(0))
  {
    seq(|rows|, i requires 0 <= i < |rows| => Entry(bucket(rows[i].country), rows[i].plug, rows[i].count.GetOr(0)))
  }

  /** One window's rows with their countries bucketed and their users on trial taken; the plug is the window's. */
  function TrialEntries(bucket: Option<string> -> string, rows: seq<CountryTrialRow>): (es: seq<Entry>)
    ensures |es| == |rows|
    ensures forall i :: 0 <= i < |rows| ==>
      es[i] == Entry(bucket(rows[i].country), None, OnTrial(rows[i].trials.GetOr(0), rows[i].converted.GetOr(0)))
  {
    seq(|rows|, i requires 0 <= i < |rows| =>
      Entry(bucket(rows[i].country), None, OnTrial(rows[i].trials.GetOr(0), rows[i].converted.GetOr(0))))
  }

  /** `defaultdict(lambda: defaultdict(int))`: country -> plug -> count. */
  type Counts = map<string, map<string, int>>

  /** `m[c].get(p, 0)`, 0 for a country that is not there. */
  function Get2(m: Counts, c: string, p: string): int {
    if c in m && p in m[c] then m[c][p] else 0
  }

  /** `m[c][p] += v` */
  function Add2(m: Counts, c: string, p: string, v: int): (m': Counts)
    ensures forall c', p' :: Get2(m', c', p') == Get2(m, c', p') + (if c' == c && p' == p then v else 0)
    ensures m'.Keys == m.Keys + {c}
  {
    var inner := if c in m then m[c] else map[];
    m[c := inner[p := Get2(m, c, p) + v]]
  }

  /** The paid entry is counted: its plug label is one of `PLUGS`. */
  predicate Counted(e: Entry) {
    e.plug.Some? && e.plug.value in PLUGS
  }

  /** Reference: the counts of every counted paid entry of country `c` (or "Other") and plug `p`, added up. */
  function CountryPaidSum(es: seq<Entry>, c: string, p: string): int
    decreases |es|
  {
    if es == [] then 0
    else
      var last := es[|es| - 1];
      CountryPaidSum(es[..|es| - 1], c, p) + (if Counted(last) && last.plug.value == p && last.country == c then last.value else 0)
  }

  /** Some counted paid entry went under `c`. */
  predicate PaidSeen(es: seq<Entry>, c: string)
    decreases |es|
  {
    if es == [] then false
    else PaidSeen(es[..|es| - 1], c) || (Counted(es[|es| - 1]) && es[|es| - 1].country == c)
  }

  /** The paid loop of `fetch_country_user_data`. */
  method GroupCountryPaid(bucket: Option<string> -> string, rows: seq<CountryPaidRow>) returns (paid: Counts)
    ensures forall c, p :: Get2(paid, c, p) == CountryPaidSum(PaidEntries(bucket, rows), c, p)
    ensures forall c :: c in paid <==> PaidSeen(PaidEntries(bucket, rows), c)
  {
    ghost var es := PaidEntries(bucket, rows);
    paid := map[];
    PaidGroupedEmpty();
    for i := 0 to |rows|
      invariant PaidGrouped(paid, es[..i])
    {
      var r := rows[i];
      PaidStep(paid, es[..i], es[i]);
      assert es[..i + 1] == es[..i] + [es[i]];
      if r.plug.Some? && r.plug.value in PLUGS {
        var country := bucket(r.country);
        paid := Add2(paid, country, r.plug.value, r.count.GetOr(0));
      }
    }
    assert es[..|rows|] == es;
  }

  /** `m` holds the grouped counts of the entries `es`. */
  ghost predicate PaidGrouped(m: Counts, es: seq<Entry>) {
    && (forall c, p :: Get2(m, c, p) == CountryPaidSum(es, c, p))
    && (forall c :: c in m <==> PaidSeen(es, c))
  }

  lemma PaidGroupedEmpty()
    ensures PaidGrouped(map[], [])
  {
  }

  /** One more row of the paid loop keeps the counts grouped. */
  lemma PaidStep(m: Counts, es: seq<Entry>, e: Entry)
    requires PaidGrouped(m, es)
    ensures PaidGrouped(if Counted(e) then Add2(m, e.country, e.plug.value, e.value) else m, es + [e])
  {
    assert (es + [e])[..|es|] == es;
  }

  /** A country shows up in the paid counts exactly when some counted row went under it. */
  lemma {:induction false} PaidSeenIffEntry(es: seq<Entry>, c: string)
    ensures PaidSeen(es, c) <==> exists i :: 0 <= i < |es| && Counted(es[i]) && es[i].country == c
    decreases |es|
  {
    if es != [] {
      var n := |es| - 1;
      PaidSeenIffEntry(es[..n], c);
      if PaidSeen(es[..n], c) {
        var i :| 0 <= i < n && Counted(es[..n][i]) && es[..n][i].country == c;
        assert es[i] == es[..n][i];
      }
      if i :| 0 <= i < |es| && Counted(es[i]) && es[i].country == c {
        if i < n { assert es[..n][i] == es[i]; }
      }
    }
  }

  /** The same, stated on the rows of the query: a plug in `PLUGS` and a country that buckets to `c`. */
  lemma PaidSeenIffRow(bucket: Option<string> -> string, rows: seq<CountryPaidRow>, c: string)
    ensures PaidSeen(PaidEntries(bucket, rows), c) <==>
            exists i :: 0 <= i < |rows| && rows[i].plug.Some? && rows[i].plug.value in PLUGS && bucket(rows[i].country) == c
  {
    var es := PaidEntries(bucket, rows);
    PaidSeenIffEntry(es, c);
    if i :| 0 <= i < |rows| && rows[i].plug.Some? && rows[i].plug.value in PLUGS && bucket(rows[i].country) == c {
      assert Counted(es[i]) && es[i].country == c;
    }
  }

  /** A country no counted row went under has no paid users. */
  lemma {:induction false} PaidUnseenIsZero(es: seq<Entry>, c: string, p: string)
    requires !PaidSeen(es, c)
    ensures CountryPaidSum(es, c, p) == 0
    decreases |es|
  {
    if es != [] { PaidUnseenIsZero(es[..|es| - 1], c, p); }
  }

  /** Reference: the values of every entry under `c`, added up. */
  function TrialSum(es: seq<Entry>, c: string): int
    decreases |es|
  {
    if es == [] then 0
    else TrialSum(es[..|es| - 1], c) + (if es[|es| - 1].country == c then es[|es| - 1].value else 0)
  }

  predicate TrialSeen(es: seq<Entry>, c: string)
    decreases |es|
  {
    if es == [] then false
    else TrialSeen(es[..|es| - 1], c) || es[|es| - 1].country == c
  }

  /** `m` is `base` with the entries `es` added under plug `p`. */
  ghost predicate TrialsAdded(base: Counts, m: Counts, p: string, es: seq<Entry>) {
    && (forall c, q :: Get2(m, c, q) == Get2(base, c, q) + (if q == p then TrialSum(es, c) else 0))
    && (forall c :: c in m <==> c in base || TrialSeen(es, c))
  }

  lemma TrialsAddedEmpty(base: Counts, p: string)
    ensures TrialsAdded(base, base, p, [])
  {
    forall c ensures TrialSum([], c) == 0 && !TrialSeen([], c) {
    }
  }

  /** One more row of a window keeps the counts added. */
  lemma TrialStep(base: Counts, m: Counts, p: string, es: seq<Entry>, e: Entry)
    requires TrialsAdded(base, m, p, es)
    ensures TrialsAdded(base, Add2(m, e.country, p, e.value), p, es + [e])
  {
    assert (es + [e])[..|es|] == es;
  }

  lemma {:induction false} TrialSeenIffEntry(es: seq<Entry>, c: string)
    ensures TrialSeen(es, c) <==> exists i :: 0 <= i < |es| && es[i].country == c
    decreases |es|
  {
    if es != [] {
      var n := |es| - 1;
      TrialSeenIffEntry(es[..n], c);
      if TrialSeen(es[..n], c) {
        var i :| 0 <= i < n && es[..n][i].country == c;
        assert es[i] == es[..n][i];
      }
      if i :| 0 <= i < |es| && es[i].country == c {
        if i < n { assert es[..n][i] == es[i]; }
      }
    }
  }

  /** A country shows up in a window's trial counts exactly when one of its rows buckets to it. */
  lemma TrialSeenIffRow(bucket: Option<string> -> string, rows: seq<CountryTrialRow>, c: string)
    ensures TrialSeen(TrialEntries(bucket, rows), c) <==> exists i :: 0 <= i < |rows| && bucket(rows[i].country) == c
  {
    var es := TrialEntries(bucket, rows);
    TrialSeenIffEntry(es, c);
    if i :| 0 <= i < |rows| && bucket(rows[i].country) == c {
      assert es[i].country == c;
    }
  }

  /** A country with no row in a window has nobody on trial there. */
  lemma {:induction false} TrialUnseenIsZero(es: seq<Entry>, c: string)
    requires !TrialSeen(es, c)
    ensures TrialSum(es, c) == 0
    decreases |es|
  {
    if es != [] { TrialUnseenIsZero(es[..|es| - 1], c); }
  }

  /** The rows of one window: `trial_by_country_pp[country][pp] += on_trial`. */
  method AddWindowTrials(bucket: Option<string> -> string, trial: Counts, p: string, rows: seq<CountryTrialRow>) returns (trial': Counts)
    ensures forall c, q :: Get2(trial', c, q) == Get2(trial, c, q) + (if q == p then TrialSum(TrialEntries(bucket, rows), c) else 0)
    ensures forall c :: c in trial' <==> c in trial || TrialSeen(TrialEntries(bucket, rows), c)
  {
    ghost var es := TrialEntries(bucket, rows);
    trial' := trial;
    TrialsAddedEmpty(trial, p);
    for i := 0 to |rows|
      invariant TrialsAdded(trial, trial', p, es[..i])
    {
      var r := rows[i];
      TrialStep(trial, trial', p, es[..i], es[i]);
      assert es[..i + 1] == es[..i] + [es[i]];
      var country := bucket(r.country);
      trial' := Add2(trial', country, p, OnTrial(r.trials.GetOr(0), r.converted.GetOr(0)));
    }
    assert es[..|rows|] == es;
  }

  /** The entries of window `w`. */
  function WindowEntries(bucket: Option<string> -> string, fetch: (string, int) -> Option<seq<CountryTrialRow>>, w: int): seq<Entry>
    requires 0 <= w < |TRIAL_WINDOWS|
  {
    TrialEntries(bucket, RowsOf(WindowRows(fetch, w)))
  }

  /** Some of the first `w` windows had a row counted under `c`. */
  predicate TrialSeenIn(bucket: Option<string> -> string, fetch: (string, int) -> Option<seq<CountryTrialRow>>, c: string, w: int)
    requires 0 <= w <= |TRIAL_WINDOWS|
  {
    w > 0 && (TrialSeenIn(bucket, fetch, c, w - 1) || TrialSeen(WindowEntries(bucket, fetch, w - 1), c))
  }

  /** The trial loop of `fetch_country_user_data`: one query per window, a failed one adds nothing. */
  method GroupCountryTrials(bucket: Option<string> -> string, fetch: (string, int) -> Option<seq<CountryTrialRow>>) returns (trial: Counts)
    ensures forall c, k :: 0 <= k < |PLUGS| ==> Get2(trial, c, PLUGS[k]) == TrialSum(WindowEntries(bucket, fetch, WindowOf(k)), c)
    ensures forall c, p :: p !in PLUGS ==> Get2(trial, c, p) == 0
    ensures forall c :: c in trial <==> TrialSeenIn(bucket, fetch, c, |TRIAL_WINDOWS|)
  {
    WindowsMatchPlugs();
    trial := map[];
    for w := 0 to |TRIAL_WINDOWS|
      invariant forall c, v :: 0 <= v < |TRIAL_WINDOWS| ==>
        Get2(trial, c, TRIAL_PLUGS[v]) == (if v < w then TrialSum(WindowEntries(bucket, fetch, v), c) else 0)
      invariant forall c, p :: p !in TRIAL_PLUGS ==> Get2(trial, c, p) == 0
      invariant forall c :: c in trial <==> TrialSeenIn(bucket, fetch, c, w)
    {
      TrialWindowPlug(w);
      var pp := Lookup(PP_MAP, TRIAL_WINDOWS[w].0).value;
      var rows := RowsOf(fetch(TRIAL_WINDOWS[w].0, TRIAL_WINDOWS[w].1));
      trial := AddWindowTrials(bucket, trial, pp, rows);
    }
    forall c, k | 0 <= k < |PLUGS| ensures Get2(trial, c, PLUGS[k]) == TrialSum(WindowEntries(bucket, fetch, WindowOf(k)), c) {
      assert TRIAL_PLUGS[WindowOf(k)] == PLUGS[k];
    }
  }

  /** A country's cells: one per plug, in `PLUGS` order. */
  ghost predicate CountryCellsOf(d: Dict<string, UserCell>, paid: Counts, trial: Counts, c: string) {
    && d.Valid() && d.keys == PLUGS
    && forall k :: 0 <= k < |PLUGS| ==> d.entries[PLUGS[k]] == Cell(Get2(paid, c, PLUGS[k]), Get2(trial, c, PLUGS[k]))
  }

  /** `for pp in PLUGS: country_user_data[country][pp] = {...}` */
  method CountryCells(paid: Counts, trial: Counts, c: string) returns (d: Dict<string, UserCell>)
    ensures CountryCellsOf(d, paid, trial, c)
  {
    PlugsDistinct();
    d := EmptyDict();
    for k := 0 to |PLUGS|
      invariant d.Valid() && d.keys == PLUGS[..k]
      invariant forall j :: 0 <= j < k ==> d.entries[PLUGS[j]] == Cell(Get2(paid, c, PLUGS[j]), Get2(trial, c, PLUGS[j]))
    {
      var pp := PLUGS[k];
      assert pp !in d.entries;
      d := d.Put(pp, Cell(Get2(paid, c, pp), Get2(trial, c, pp)));
      assert PLUGS[..k + 1] == PLUGS[..k] + [pp];
    }
    assert PLUGS[..|PLUGS|] == PLUGS;
  }

  /** The output: sorted countries, "Other" left out, each with its cells. */
  ghost predicate CountryUsers(cu: Dict<string, Dict<string, UserCell>>, paid: Counts, trial: Counts) {
    && cu.Valid() && SortedBy(cu.keys, StrLess) && Lists(cu.keys, (paid.Keys + trial.Keys) - {OTHER})
    && forall c :: c in cu.entries ==> CountryCellsOf(cu.entries[c], paid, trial, c)
  }

  /** The first `i` of the sorted countries, "Other" skipped. */
  ghost predicate UsersSoFar(cu: Dict<string, Dict<string, UserCell>>, cs: seq<string>, i: int, paid: Counts, trial: Counts) {
    && 0 <= i <= |cs|
    && cu.Valid() && SortedBy(cu.keys, StrLess)
    && (forall c :: c in cu.keys <==> c in cs[..i] && c != OTHER)
    && (forall j, l :: 0 <= j < |cu.keys| && i <= l < |cs| ==> StrLess(cu.keys[j], cs[l]))
    && (forall c :: c in cu.entries ==> CountryCellsOf(cu.entries[c], paid, trial, c))
  }

  /** "Other" is skipped: the countries so far stay as they are. */
  lemma UsersSkip(cu: Dict<string, Dict<string, UserCell>>, cs: seq<string>, i: int, paid: Counts, trial: Counts)
    requires UsersSoFar(cu, cs, i, paid, trial) && i < |cs| && cs[i] == OTHER
    ensures UsersSoFar(cu, cs, i + 1, paid, trial)
  {
    assert cs[..i + 1] == cs[..i] + [cs[i]];
  }

  /** Any other country goes at the end, after every country so far. */
  lemma UsersAdd(cu: Dict<string, Dict<string, UserCell>>, cs: seq<string>, i: int, paid: Counts, trial: Counts,
                 cells: Dict<string, UserCell>)
    requires UsersSoFar(cu, cs, i, paid, trial) && i < |cs| && SortedBy(cs, StrLess) && cs[i] != OTHER
    requires CountryCellsOf(cells, paid, trial, cs[i])
    ensures UsersSoFar(cu.Put(cs[i], cells), cs, i + 1, paid, trial)
  {
    var c := cs[i];
    assert cs[..i + 1] == cs[..i] + [c];
    assert c !in cu.entries by {
      StrLessIrreflexive(c);
      forall j | 0 <= j < |cu.keys| ensures cu.keys[j] != c { assert StrLess(cu.keys[j], c); }
    }
    var cu' := cu.Put(c, cells);
    assert cu'.keys == cu.keys + [c];
    SortedAppend(cu.keys, c, StrLess);
    forall j, l | 0 <= j < |cu'.keys| && i + 1 <= l < |cs| ensures StrLess(cu'.keys[j], cs[l]) {
      if j < |cu.keys| { assert StrLess(cu.keys[j], cs[l]); } else { assert StrLess(cs[i], cs[l]); }
    }
    assert cu'.entries == cu.entries[c := cells];
  }

  /** The output loop of `fetch_country_user_data`. */
  method BuildCountryUsers(paid: Counts, trial: Counts) returns (cu: Dict<string, Dict<string, UserCell>>)
    ensures CountryUsers(cu, paid, trial)
  {
    StrLessIsStrictTotalOrder();
    var cs := SortSet(paid.Keys + trial.Keys, StrLess);
    cu := EmptyDict();
    for i := 0 to |cs|
      invariant UsersSoFar(cu, cs, i, paid, trial)
    {
      var c := cs[i];
      if c != OTHER {
        var cells := CountryCells(paid, trial, c);
        UsersAdd(cu, cs, i, paid, trial, cells);
        cu := cu.Put(c, cells);
      } else {
        UsersSkip(cu, cs, i, paid, trial);
      }
    }
    UsersDone(cu, cs, paid, trial);
  }

  lemma UsersDone(cu: Dict<string, Dict<string, UserCell>>, cs: seq<string>, paid: Counts, trial: Counts)
    requires UsersSoFar(cu, cs, |cs|, paid, trial) && Lists(cs, paid.Keys + trial.Keys)
    ensures CountryUsers(cu, paid, trial)
  {
    assert cs[..|cs|] == cs;
  }

  /** Every country heard of in some window buckets from a row of that window. */
  lemma TrialSeenInIsDashboard(fetch: (string, int) -> Option<seq<CountryTrialRow>>, c: string, w: int)
    requires 0 <= w <= |TRIAL_WINDOWS|
    requires TrialSeenIn(UserBucket, fetch, c, w) && c != OTHER
    ensures c in DASHBOARD_COUNTRIES
    decreases w
  {
    if TrialSeenIn(UserBucket, fetch, c, w - 1) {
      TrialSeenInIsDashboard(fetch, c, w - 1);
    } else {
      var rows := RowsOf(WindowRows(fetch, w - 1));
      TrialSeenIffRow(UserBucket, rows, c);
      var i :| 0 <= i < |rows| && UserBucket(rows[i].country) == c;
      UserBucketIsDashboard(rows[i].country);
    }
  }

  /**
   * `fetch_country_user_data`: the paid query's rows (None when it failed) and
   * the trial queries.  One entry per dashboard country that any counted row
   * went under, sorted, with the plug cells in `PLUGS` order.
   */
  method FetchCountryUserData(paidRes: Option<seq<CountryPaidRow>>,
                              fetch: (string, int) -> Option<seq<CountryTrialRow>>)
    returns (cu: Dict<string, Dict<string, UserCell>>)
    ensures cu.Valid() && SortedBy(cu.keys, StrLess)
    ensures forall c :: c in cu.entries <==>
            c != OTHER && (PaidSeen(PaidEntries(UserBucket, RowsOf(paidRes)), c) || TrialSeenIn(UserBucket, fetch, c, |TRIAL_WINDOWS|))
    ensures forall c :: c in cu.entries ==> c in DASHBOARD_COUNTRIES && cu.entries[c].keys == PLUGS
    ensures forall c, k :: c in cu.entries && 0 <= k < |PLUGS| ==>
            PLUGS[k] in cu.entries[c].entries &&
            cu.entries[c].entries[PLUGS[k]] ==
              Cell(CountryPaidSum(PaidEntries(UserBucket, RowsOf(paidRes)), c, PLUGS[k]),
                   TrialSum(WindowEntries(UserBucket, fetch, WindowOf(k)), c))
  {
    var paid := GroupCountryPaid(UserBucket, RowsOf(paidRes));
    var trial := GroupCountryTrials(UserBucket, fetch);
    cu := BuildCountryUsers(paid, trial);
    assert forall c :: c in cu.entries <==> (c in paid || c in trial) && c != OTHER;
    forall c | c in cu.entries ensures c in DASHBOARD_COUNTRIES {
      if c in paid {
        var rows := RowsOf(paidRes);
        PaidSeenIffRow(UserBucket, rows, c);
        var i :| 0 <= i < |rows| && rows[i].plug.Some? && rows[i].plug.value in PLUGS && UserBucket(rows[i].country) == c;
        UserBucketIsDashboard(rows[i].country);
      } else {
        TrialSeenInIsDashboard(fetch, c, |TRIAL_WINDOWS|);
      }
    }
  }
}
