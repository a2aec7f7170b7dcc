/**
 * The trial series of `fetch_trial_data`: query rows are grouped by plug,
 * month and day, the last row for a (plug, day) replacing any earlier one,
 * and every month a plug has rows for becomes a gap-free, zero-filled list
 * of days, stopping at today in the current month.
 */
module TrialSeries {
  import opened Wrappers
  import opened Calendar
  import opened DateOrder
  import opened Ordering
  import opened Dicts
  import opened Labels
  import Chunking

  /** A row `[POWERPLUG_TYPE, TRIAL_DATE, NUM_TRIAL_USERS, SUM_CONVERTED_USERS]`; None is a null cell. */
  datatype TrialRow = TrialRow(plug: Option<string>, date: Option<CalDate>, trial: Option<int>, converted: Option<int>)

  datatype Counts = Counts(trial: int, converted: int)

  /** A row that survived normalisation. */
  datatype Entry = Entry(plug: string, date: CalDate, counts: Counts)

  /** `pp_monthly`: plug -> month -> day -> counts. */
  type Groups = map<string, map<MonthKey, map<CalDate, Counts>>>

  /** One month of one plug in the output: three parallel lists. */
  datatype TrialMonth = TrialMonth(dates: seq<CalDate>, trial: seq<int>, converted: seq<int>)

  type TrialData = Dict<string, Dict<MonthKey, TrialMonth>>

  // ------------------------------------------------------------- grouping

  /** The row's plug, day and counts; None when the plug is unknown or the day is missing. */
  function EntryOf(r: TrialRow): (e: Option<Entry>)
    ensures e.Some? <==> TrialPlug(r.plug).Some? && r.date.Some?
    ensures e.Some? ==> e.value.plug in PLUGS && e.value.date == r.date.value
    ensures e.Some? ==> e.value.counts == Counts(r.trial.GetOr(0), r.converted.GetOr(0))
  {
    match (TrialPlug(r.plug), r.date)
    case (Some(p), Some(d)) => Some(Entry(p, d, Counts(r.trial.GetOr(0), r.converted.GetOr(0))))
    case _ => None
  }

  predicate Matches(r: TrialRow, p: string, d: CalDate) {
    EntryOf(r).Some? && EntryOf(r).value.plug == p && EntryOf(r).value.date == d
  }

  /** Reference semantics of the grouping: the counts of the last row for (p, d). */
  function Latest(rows: seq<TrialRow>, p: string, d: CalDate): Option<Counts>
    decreases |rows|
  {
    if rows == [] then None
    else if Matches(rows[|rows| - 1], p, d) then Some(EntryOf(rows[|rows| - 1]).value.counts)
    else Latest(rows[..|rows| - 1], p, d)
  }

  /** The counts `pp_monthly[p][month][d]` holds, if any. */
  function Cell(g: Groups, p: string, d: CalDate): Option<Counts> {
    if p in g && MonthOf(d) in g[p] && d in g[p][MonthOf(d)] then Some(g[p][MonthOf(d)][d]) else None
  }

  /**
   * `g` is what grouping `rows` leaves: every cell holds the latest row for
   * its (plug, day), every day sits under its own month, and no plug or month
   * is present without a day under it (a `defaultdict` entry is only created
   * by the assignment).
   */
  ghost predicate Represents(g: Groups, rows: seq<TrialRow>) {
    && (forall p, d :: Cell(g, p, d) == Latest(rows, p, d))
    && (forall p, mk, d :: p in g && mk in g[p] && d in g[p][mk] ==> MonthOf(d) == mk)
    && (forall p :: p in g ==> g[p] != map[])
    && (forall p, mk :: p in g && mk in g[p] ==> g[p][mk] != map[])
  }

  /** `pp_monthly[pp][month_key][date_str] = {...}` for one entry. */
  function Record(g: Groups, e: Entry): Groups {
    var mk := MonthOf(e.date);
    var byMonth: map<MonthKey, map<CalDate, Counts>> := if e.plug in g then g[e.plug] else map[];
    var byDate: map<CalDate, Counts> := if mk in byMonth then byMonth[mk] else map[];
    g[e.plug := byMonth[mk := byDate[e.date := e.counts]]]
  }

  lemma RecordCell(g: Groups, e: Entry, p: string, d: CalDate)
    ensures Cell(Record(g, e), p, d) == if p == e.plug && d == e.date then Some(e.counts) else Cell(g, p, d)
  {
  }

  lemma RecordKeepsRepresents(g: Groups, rows: seq<TrialRow>, r: TrialRow)
    requires Represents(g, rows)
    ensures Represents(if EntryOf(r).Some? then Record(g, EntryOf(r).value) else g, rows + [r])
  {
    var rows' := rows + [r];
    assert rows'[..|rows'| - 1] == rows;
    var g' := if EntryOf(r).Some? then Record(g, EntryOf(r).value) else g;
    forall p, d ensures Cell(g', p, d) == Latest(rows', p, d) {
      if EntryOf(r).Some? {
        RecordCell(g, EntryOf(r).value, p, d);
      }
    }
    if EntryOf(r).Some? {
      RecordKeepsShape(g, EntryOf(r).value);
    }
  }

  lemma RecordKeepsShape(g: Groups, e: Entry)
    requires forall p, mk, d :: p in g && mk in g[p] && d in g[p][mk] ==> MonthOf(d) == mk
    requires forall p :: p in g ==> g[p] != map[]
    requires forall p, mk :: p in g && mk in g[p] ==> g[p][mk] != map[]
    ensures var g' := Record(g, e);
      && (forall p, mk, d :: p in g' && mk in g'[p] && d in g'[p][mk] ==> MonthOf(d) == mk)
      && (forall p :: p in g' ==> g'[p] != map[])
      && (forall p, mk :: p in g' && mk in g'[p] ==> g'[p][mk] != map[])
  {
    var g' := Record(g, e);
    var mk0 := MonthOf(e.date);
    assert e.date in g'[e.plug][mk0];
    forall p, mk, d | p in g' && mk in g'[p] && d in g'[p][mk] ensures MonthOf(d) == mk {
      if p == e.plug && mk == mk0 {
        if d != e.date { assert d in g[p][mk]; }
      } else {
        assert d in g[p][mk];
      }
    }
    forall p, mk | p in g' && mk in g'[p] ensures g'[p][mk] != map[] {
      if p == e.plug && mk == mk0 {
        assert e.date in g'[p][mk];
      } else {
        assert g'[p][mk] == g[p][mk];
      }
    }
  }

  /** The grouping loop of `fetch_trial_data`. */
  method GroupTrialRows(rows: seq<TrialRow>) returns (g: Groups)
    ensures Represents(g, rows)
    ensures forall p :: p in g ==> p in PLUGS
    ensures forall p, mk :: p in g && mk in g[p] ==> ValidMonth(mk)
  {
    g := map[];
    for i := 0 to |rows|
      invariant Represents(g, rows[..i])
      invariant forall p :: p in g ==> p in PLUGS
      invariant forall p, mk :: p in g && mk in g[p] ==> ValidMonth(mk)
    {
      RecordKeepsRepresents(g, rows[..i], rows[i]);
      assert rows[..i + 1] == rows[..i] + [rows[i]];
      var e := EntryOf(rows[i]);
      if e.Some? {
        g := Record(g, e.value);
      }
    }
    assert rows[..|rows|] == rows;
  }

  // ------------------------------------------------- grouping: properties

  lemma {:induction false} LatestIsSomeIffRow(rows: seq<TrialRow>, p: string, d: CalDate)
    ensures Latest(rows, p, d).Some? <==> exists i :: 0 <= i < |rows| && Matches(rows[i], p, d)
    decreases |rows|
  {
    if rows != [] {
      var n := |rows| - 1;
      var init := rows[..n];
      LatestIsSomeIffRow(init, p, d);
      if Matches(rows[n], p, d) {
        assert Latest(rows, p, d).Some?;
      } else {
        assert Latest(rows, p, d) == Latest(init, p, d);
        forall i | 0 <= i < n ensures init[i] == rows[i] { }
      }
    }
  }

  /** Last write wins: the counts kept are those of the last matching row. */
  lemma {:induction false} LatestIsLastRow(rows: seq<TrialRow>, p: string, d: CalDate, i: int)
    requires 0 <= i < |rows| && Matches(rows[i], p, d)
    requires forall j :: i < j < |rows| ==> !Matches(rows[j], p, d)
    ensures Latest(rows, p, d) == Some(EntryOf(rows[i]).value.counts)
    decreases |rows|
  {
    if i < |rows| - 1 {
      var init := rows[..|rows| - 1];
      assert init[i] == rows[i];
      forall j | i < j < |init| ensures !Matches(init[j], p, d) {
        assert init[j] == rows[j];
      }
      LatestIsLastRow(init, p, d, i);
    }
  }

  predicate LandsIn(r: TrialRow, p: string, mk: MonthKey) {
    EntryOf(r).Some? && EntryOf(r).value.plug == p && MonthOf(EntryOf(r).value.date) == mk
  }

  /** A month of a plug is present exactly when some row lands in it. */
  lemma GroupMonthsComeFromRows(g: Groups, rows: seq<TrialRow>, p: string, mk: MonthKey)
    requires Represents(g, rows)
    ensures p in g && mk in g[p] <==> exists i :: 0 <= i < |rows| && LandsIn(rows[i], p, mk)
  {
    if p in g && mk in g[p] {
      PresentMonthHasRow(g, rows, p, mk);
    }
    if exists i :: 0 <= i < |rows| && LandsIn(rows[i], p, mk) {
      var i :| 0 <= i < |rows| && LandsIn(rows[i], p, mk);
      RowMakesMonthPresent(g, rows, p, mk, i);
    }
  }

  lemma PresentMonthHasRow(g: Groups, rows: seq<TrialRow>, p: string, mk: MonthKey)
    requires Represents(g, rows) && p in g && mk in g[p]
    ensures exists i :: 0 <= i < |rows| && LandsIn(rows[i], p, mk)
  {
    var d :| d in g[p][mk];
    assert Cell(g, p, d).Some?;
    LatestIsSomeIffRow(rows, p, d);
    var i :| 0 <= i < |rows| && Matches(rows[i], p, d);
    assert LandsIn(rows[i], p, mk);
  }

  lemma RowMakesMonthPresent(g: Groups, rows: seq<TrialRow>, p: string, mk: MonthKey, i: int)
    requires Represents(g, rows) && 0 <= i < |rows| && LandsIn(rows[i], p, mk)
    ensures p in g && mk in g[p]
  {
    var d := EntryOf(rows[i]).value.date;
    assert Matches(rows[i], p, d);
    LatestIsSomeIffRow(rows, p, d);
    assert Cell(g, p, d).Some?;
  }

  /** A plug is present exactly when some row normalises to it. */
  lemma GroupPlugsComeFromRows(g: Groups, rows: seq<TrialRow>, p: string)
    requires Represents(g, rows)
    ensures p in g <==> exists i :: 0 <= i < |rows| && EntryOf(rows[i]).Some? && EntryOf(rows[i]).value.plug == p
  {
    if p in g {
      var mk :| mk in g[p];
      GroupMonthsComeFromRows(g, rows, p, mk);
      var i :| 0 <= i < |rows| && LandsIn(rows[i], p, mk);
    }
    if exists i :: 0 <= i < |rows| && EntryOf(rows[i]).Some? && EntryOf(rows[i]).value.plug == p {
      var i :| 0 <= i < |rows| && EntryOf(rows[i]).Some? && EntryOf(rows[i]).value.plug == p;
      GroupMonthsComeFromRows(g, rows, p, MonthOf(EntryOf(rows[i]).value.date));
    }
  }

  /**
   * Two aliases of one plug on one day: the later row replaces the earlier
   * one ('cardio' 3/1 then 'cardio adaptability' 5/2 leaves 5/2, not 8/3).
   */
  lemma AliasRowsOverwrite(d: CalDate)
    ensures Latest([TrialRow(Some("cardio"), Some(d), Some(3), Some(1)),
                    TrialRow(Some("cardio adaptability"), Some(d), Some(5), Some(2))], "Cardio", d)
         == Some(Counts(5, 2))
  {
    var rows := [TrialRow(Some("cardio"), Some(d), Some(3), Some(1)),
                 TrialRow(Some("cardio adaptability"), Some(d), Some(5), Some(2))];
    assert Lower("cardio adaptability") == "cardio adaptability";
    assert Matches(rows[1], "Cardio", d);
  }

  // ------------------------------------------------------------ densifying

  /**
   * `max_day`: today's day in today's month, otherwise the month's length
   * computed as a difference of first days.
   */
  function MaxDay(mk: MonthKey, today: CalDate): (n: int)
    requires ValidMonth(mk)
  {
    if mk.year == today.year && mk.month == today.month then today.day
    else DaysInMonthBySubtraction(mk)
  }

  lemma MaxDayIsTodayOrMonthLength(mk: MonthKey, today: CalDate)
    requires ValidMonth(mk)
    ensures MaxDay(mk, today) == if mk == MonthOf(today) then today.day else DaysInMonth(mk.year, mk.month)
    ensures 1 <= MaxDay(mk, today) <= DaysInMonth(mk.year, mk.month)
  {
    SubtractionIsDaysInMonth(mk);
  }

  function CountsAt(cells: map<CalDate, Counts>, d: CalDate): Counts {
    if d in cells then cells[d] else Counts(0, 0)
  }

  /**
   * `s` is the dense series of month `mk`: days 1 .. max_day in order, and
   * for each the recorded counts, or 0/0.
   */
  ghost predicate DenseFor(s: TrialMonth, mk: MonthKey, cells: map<CalDate, Counts>, today: CalDate)
    requires ValidMonth(mk)
  {
    && |s.dates| == MaxDay(mk, today)
    && |s.trial| == |s.dates| && |s.converted| == |s.dates|
    && forall i :: 0 <= i < |s.dates| ==>
         && s.dates[i] == Date(mk.year, mk.month, i + 1)
         && s.trial[i] == CountsAt(cells, s.dates[i]).trial
         && s.converted[i] == CountsAt(cells, s.dates[i]).converted
  }

  /** The `for day in range(1, max_day + 1)` loop for one plug and month. */
  method DenseMonth(mk: MonthKey, cells: map<CalDate, Counts>, today: CalDate) returns (s: TrialMonth)
    requires ValidMonth(mk)
    ensures DenseFor(s, mk, cells, today)
  {
    MaxDayIsTodayOrMonthLength(mk, today);
    var maxDay := MaxDay(mk, today);
    var dates: seq<CalDate> := [];
    var trials: seq<int> := [];
    var converted: seq<int> := [];
    for day := 1 to maxDay + 1
      invariant |dates| == day - 1 && |trials| == day - 1 && |converted| == day - 1
      invariant forall i :: 0 <= i < day - 1 ==>
        && dates[i] == Date(mk.year, mk.month, i + 1)
        && trials[i] == CountsAt(cells, dates[i]).trial
        && converted[i] == CountsAt(cells, dates[i]).converted
    {
      var d: CalDate := Date(mk.year, mk.month, day);
      var dayData := CountsAt(cells, d);
      dates := dates + [d];
      trials := trials + [dayData.trial];
      converted := converted + [dayData.converted];
    }
    s := TrialMonth(dates, trials, converted);
  }

  /**
   * A dense month runs from the 1st, one day at a time, to today (this
   * month) or to the last day of the month (any other month), and contains
   * every day in between.
   */
  lemma DenseDatesAreContiguous(s: TrialMonth, mk: MonthKey, cells: map<CalDate, Counts>, today: CalDate)
    requires ValidMonth(mk) && DenseFor(s, mk, cells, today)
    ensures s.dates != [] && s.dates[0] == Date(mk.year, mk.month, 1)
    ensures forall i :: 0 <= i < |s.dates| - 1 ==> s.dates[i + 1] == Next(s.dates[i])
    ensures SortedBy(s.dates, DateLess)
    ensures mk == MonthOf(today) ==> s.dates[|s.dates| - 1] == today
    ensures mk != MonthOf(today) ==> |s.dates| == DaysInMonth(mk.year, mk.month)
    ensures forall d: CalDate :: MonthOf(d) == mk && d.day <= |s.dates| ==> d in s.dates
  {
    MaxDayIsTodayOrMonthLength(mk, today);
    assert s.dates[0] == Date(mk.year, mk.month, 1);
    forall i, j | 0 <= i < j < |s.dates| ensures DateLess(s.dates[i], s.dates[j]) {
      assert s.dates[i].day == i + 1 && s.dates[j].day == j + 1;
    }
    forall d: CalDate | MonthOf(d) == mk && d.day <= |s.dates| ensures d in s.dates {
      assert s.dates[d.day - 1] == d;
    }
  }

  /** Every recorded day up to max_day shows its counts; days with no row show 0/0. */
  lemma DenseCellsAreRecordedCounts(s: TrialMonth, mk: MonthKey, cells: map<CalDate, Counts>, today: CalDate, d: CalDate)
    requires ValidMonth(mk) && DenseFor(s, mk, cells, today)
    requires MonthOf(d) == mk && d.day <= MaxDay(mk, today)
    ensures s.dates[d.day - 1] == d
    ensures d in cells ==> s.trial[d.day - 1] == cells[d].trial && s.converted[d.day - 1] == cells[d].converted
    ensures d !in cells ==> s.trial[d.day - 1] == 0 && s.converted[d.day - 1] == 0
  {
  }

  // ------------------------------------------------------- final structure

  /** The elements of `ps` that are in `s`, in the order of `ps`. */
  function PresentInOrder(ps: seq<string>, s: set<string>): (r: seq<string>)
    ensures forall x :: x in r <==> x in ps && x in s
    decreases |ps|
  {
    if ps == [] then []
    else PresentInOrder(ps[..|ps| - 1], s) + (if ps[|ps| - 1] in s then [ps[|ps| - 1]] else [])
  }

  /** `x` comes before `y` in `ps`. */
  ghost predicate Precedes(ps: seq<string>, x: string, y: string) {
    exists i, j :: 0 <= i < j < |ps| && ps[i] == x && ps[j] == y
  }

  /** `PresentInOrder` keeps the order of `ps`: an element listed before another in `r` comes before it in `ps`. */
  lemma {:induction false} PresentInOrderKeepsOrder(ps: seq<string>, s: set<string>)
    ensures forall i, j :: 0 <= i < j < |PresentInOrder(ps, s)| ==>
              Precedes(ps, PresentInOrder(ps, s)[i], PresentInOrder(ps, s)[j])
    decreases |ps|
  {
    if ps != [] {
      var n := |ps| - 1;
      var init := ps[..n];
      var r0 := PresentInOrder(init, s);
      var r := PresentInOrder(ps, s);
      PresentInOrderKeepsOrder(init, s);
      assert r == r0 + (if ps[n] in s then [ps[n]] else []);
      forall i, j | 0 <= i < j < |r| ensures Precedes(ps, r[i], r[j]) {
        if j < |r0| {
          assert r[i] == r0[i] && r[j] == r0[j];
          assert Precedes(init, r0[i], r0[j]);
          var i', j' :| 0 <= i' < j' < |init| && init[i'] == r0[i] && init[j'] == r0[j];
          assert ps[i'] == r[i] && ps[j'] == r[j];
        } else {
          assert r[i] == r0[i] && r[j] == ps[n];
          assert r0[i] in r0;
          var i' :| 0 <= i' < |init| && init[i'] == r0[i];
          assert ps[i'] == r[i];
        }
      }
    }
  }

  /** One plug's output: its months in ascending order, each densified. */
  ghost predicate EmittedPlug(pd: Dict<MonthKey, TrialMonth>, months: map<MonthKey, map<CalDate, Counts>>, today: CalDate)
    requires forall mk :: mk in months ==> ValidMonth(mk)
  {
    && pd.Valid()
    && SortedBy(pd.keys, MonthLess) && Lists(pd.keys, months.Keys)
    && forall mk :: mk in pd.entries ==> mk in months && DenseFor(pd.entries[mk], mk, months[mk], today)
  }

  method BuildPlugMonths(months: map<MonthKey, map<CalDate, Counts>>, today: CalDate)
    returns (pd: Dict<MonthKey, TrialMonth>)
    requires forall mk :: mk in months ==> ValidMonth(mk)
    ensures EmittedPlug(pd, months, today)
  {
    MonthLessIsStrictTotalOrder();
    var mks := SortSet(months.Keys, MonthLess);
    pd := EmptyDict();
    for j := 0 to |mks|
      invariant MonthsSoFar(pd, mks, j, months, today)
    {
      var s := DenseMonth(mks[j], months[mks[j]], today);
      MonthsStep(pd, mks, j, s, months, today);
      pd := pd.Put(mks[j], s);
    }
    assert mks[..|mks|] == mks;
  }

  /** The invariant of the month loop: the first `j` sorted months are in, densified. */
  ghost predicate MonthsSoFar(pd: Dict<MonthKey, TrialMonth>, mks: seq<MonthKey>, j: int,
                              months: map<MonthKey, map<CalDate, Counts>>, today: CalDate)
    requires forall mk :: mk in months ==> ValidMonth(mk)
  {
    && 0 <= j <= |mks|
    && pd.Valid() && pd.keys == mks[..j]
    && forall mk :: mk in pd.entries ==> mk in months && DenseFor(pd.entries[mk], mk, months[mk], today)
  }

  lemma MonthsStep(pd: Dict<MonthKey, TrialMonth>, mks: seq<MonthKey>, j: int, s: TrialMonth,
                   months: map<MonthKey, map<CalDate, Counts>>, today: CalDate)
    requires forall mk :: mk in months ==> ValidMonth(mk)
    requires MonthsSoFar(pd, mks, j, months, today) && j < |mks|
    requires SortedBy(mks, MonthLess) && Lists(mks, months.Keys)
    requires DenseFor(s, mks[j], months[mks[j]], today)
    ensures MonthsSoFar(pd.Put(mks[j], s), mks, j + 1, months, today)
  {
    MonthLessIsStrictTotalOrder();
    var mk := mks[j];
    assert mk !in pd.entries by {
      forall i | 0 <= i < j ensures mks[i] != mk { SortedDistinct(mks, MonthLess, i, j); }
    }
    assert mks[..j + 1] == mks[..j] + [mk];
    PutDense(pd, mk, s, months, today);
  }

  lemma PutDense(pd: Dict<MonthKey, TrialMonth>, mk: MonthKey, s: TrialMonth,
                 months: map<MonthKey, map<CalDate, Counts>>, today: CalDate)
    requires forall m :: m in months ==> ValidMonth(m)
    requires forall m :: m in pd.entries ==> m in months && DenseFor(pd.entries[m], m, months[m], today)
    requires mk in months && DenseFor(s, mk, months[mk], today)
    ensures var pd' := pd.Put(mk, s);
      forall m :: m in pd'.entries ==> m in months && DenseFor(pd'.entries[m], m, months[m], today)
  {
  }

  lemma PlugsDistinct()
    ensures forall i, j :: 0 <= i < j < |PLUGS| ==> PLUGS[i] != PLUGS[j]
  {
  }

  /** The output loop of `fetch_trial_data`: plugs in `PLUGS` order, those without rows left out. */
  method BuildTrialData(g: Groups, today: CalDate) returns (td: TrialData)
    requires forall p, mk :: p in g && mk in g[p] ==> ValidMonth(mk)
    ensures td.Valid() && td.keys == PresentInOrder(PLUGS, g.Keys)
    ensures forall p :: p in td.entries ==> p in g && EmittedPlug(td.entries[p], g[p], today)
  {
    PlugsDistinct();
    td := EmptyDict();
    for k := 0 to |PLUGS|
      invariant td.Valid() && td.keys == PresentInOrder(PLUGS[..k], g.Keys)
      invariant forall p :: p in td.entries ==> p in g && EmittedPlug(td.entries[p], g[p], today)
    {
      assert PLUGS[..k + 1][..k] == PLUGS[..k];
      var pp := PLUGS[k];
      if pp in g {
        assert pp !in td.entries by {
          assert pp !in PLUGS[..k];
        }
        var pd := BuildPlugMonths(g[pp], today);
        td := td.Put(pp, pd);
      }
    }
    assert PLUGS[..|PLUGS|] == PLUGS;
  }

  /** `td` is the output built from the grouping `g` of `rows`. */
  ghost predicate TrialOutput(td: TrialData, g: Groups, rows: seq<TrialRow>, today: CalDate) {
    && Represents(g, rows)
    && (forall p, mk :: p in g && mk in g[p] ==> ValidMonth(mk))
    && td.Valid() && td.keys == PresentInOrder(PLUGS, g.Keys)
    && forall p :: p in td.entries ==> p in g && EmittedPlug(td.entries[p], g[p], today)
  }

  /**
   * `fetch_trial_data` end to end: None when a monthly request raises,
   * otherwise the grouped rows of all monthly windows, densified.
   */
  method FetchTrialData(start: CalDate, today: CalDate, fetch: (CalDate, CalDate) -> Option<seq<TrialRow>>)
    returns (td: Option<TrialData>)
    ensures td.None? <==> Chunking.FetchAll(fetch, Chunking.MonthlyWindows(start, today)).None?
    ensures td.Some? ==>
      exists g :: TrialOutput(td.value, g, Chunking.FetchAll(fetch, Chunking.MonthlyWindows(start, today)).value, today)
  {
    var rows := Chunking.FetchMonthly(start, today, fetch);
    if rows.None? {
      return None;
    }
    var g := GroupTrialRows(rows.value);
    var built := BuildTrialData(g, today);
    assert TrialOutput(built, g, rows.value, today);
    td := Some(built);
  }
}
