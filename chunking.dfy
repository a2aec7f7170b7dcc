/**
 * Date-window chunking: the two `while current < end` loops that split the
 * range from the data start date to today into query windows, one per
 * calendar month (trial data) and one of at most 15 days (country revenue),
 * and collect the rows each window's query returns.
 */
module Chunking {
  import opened Wrappers
  import opened Calendar

  /** An inclusive query window `[lo, hi]` (the strings `period_start_str`, `period_end_str`). */
  datatype Window = Window(lo: CalDate, hi: CalDate)

  predicate Covers(w: Window, x: CalDate) {
    Ord(w.lo) <= Ord(x) <= Ord(w.hi)
  }

  /** `min(a, b)` on dates. */
  function EarlierOf(a: CalDate, b: CalDate): (r: CalDate)
    ensures Ord(r) <= Ord(a) && Ord(r) <= Ord(b) && (r == a || r == b)
  {
    if Ord(a) <= Ord(b) then a else b
  }

  // ------------------------------------------------------------ the windows

  /** The windows the monthly loop visits from `current` on. */
  function MonthlyWindows(current: CalDate, today: CalDate): seq<Window>
    decreases Ord(today) - Ord(current)
  {
    if Ord(current) > Ord(today) then []
    else [Window(current, EarlierOf(LastOfMonth(current), today))]
         + MonthlyWindows(FirstOfNextMonth(current), today)
  }

  /** The windows the two-week loop visits from `current` on. */
  function TwoWeekWindows(current: CalDate, today: CalDate): seq<Window>
    decreases Ord(today) - Ord(current)
  {
    if Ord(current) > Ord(today) then []
    else
      var hi := EarlierOf(Fortnight(current), today);
      [Window(current, hi)] + TwoWeekWindows(Next(hi), today)
  }

  /**
   * The windows start at `start`, end at `today`, each is a non-empty range,
   * and each starts the day after the previous one ended.  No windows at all
   * when `start` is after `today`.
   */
  ghost predicate Tiles(ws: seq<Window>, start: CalDate, today: CalDate) {
    && (Ord(start) > Ord(today) <==> ws == [])
    && (ws != [] ==> ws[0].lo == start && ws[|ws| - 1].hi == today)
    && (forall i :: 0 <= i < |ws| ==> Ord(ws[i].lo) <= Ord(ws[i].hi))
    && (forall i :: 0 <= i < |ws| - 1 ==> ws[i + 1].lo == Next(ws[i].hi))
  }

  /** Each monthly window lies in one calendar month and runs to its end, or to today. */
  ghost predicate MonthlyShaped(ws: seq<Window>, today: CalDate) {
    forall i :: 0 <= i < |ws| ==>
      MonthOf(ws[i].lo) == MonthOf(ws[i].hi) && (ws[i].hi == LastOfMonth(ws[i].lo) || ws[i].hi == today)
  }

  /** Each two-week window spans 15 days (`current` to `current + 14`), or ends today. */
  ghost predicate TwoWeekShaped(ws: seq<Window>, today: CalDate) {
    forall i :: 0 <= i < |ws| ==> TwoWeekShapedWindow(ws[i], today)
  }

  /** One window spans at most 14 days and ends 14 days after its start or at today. */
  ghost predicate TwoWeekShapedWindow(w: Window, today: CalDate) {
    Ord(w.hi) - Ord(w.lo) <= 14 && (w.hi == Fortnight(w.lo) || w.hi == today)
  }

  /** Putting a window in front of a tiling that starts the day after it ends. */
  lemma TilesCons(w: Window, rest: seq<Window>, today: CalDate)
    requires Tiles(rest, Next(w.hi), today)
    requires Ord(w.lo) <= Ord(w.hi) <= Ord(today)
    ensures Tiles([w] + rest, w.lo, today)
  {
    var ws := [w] + rest;
    if rest == [] {
      OrdInjective(w.hi, today);
    }
    forall i | 0 <= i < |ws| ensures Ord(ws[i].lo) <= Ord(ws[i].hi) {
      if i > 0 { assert ws[i] == rest[i - 1]; }
    }
    forall i | 0 <= i < |ws| - 1 ensures ws[i + 1].lo == Next(ws[i].hi) {
      if i > 0 { assert ws[i] == rest[i - 1] && ws[i + 1] == rest[i]; }
    }
  }

  /** The first window of the monthly loop, and the date the loop moves on to. */
  lemma FirstMonthlyWindow(start: CalDate, today: CalDate)
    requires Ord(start) <= Ord(today)
    ensures var w := Window(start, EarlierOf(LastOfMonth(start), today));
      && MonthlyWindows(start, today) == [w] + MonthlyWindows(FirstOfNextMonth(start), today)
      && Ord(w.lo) <= Ord(w.hi) <= Ord(today)
      && MonthOf(w.lo) == MonthOf(w.hi) && (w.hi == LastOfMonth(w.lo) || w.hi == today)
      && (FirstOfNextMonth(start) == Next(w.hi) || Ord(FirstOfNextMonth(start)) > Ord(today))
  {
    var hi := EarlierOf(LastOfMonth(start), today);
    if hi != LastOfMonth(start) {
      MonthOfUpTo(start, today);
    }
  }

  lemma {:induction false} MonthlyWindowsTile(start: CalDate, today: CalDate)
    ensures Tiles(MonthlyWindows(start, today), start, today)
    decreases Ord(today) - Ord(start)
  {
    if Ord(start) <= Ord(today) {
      FirstMonthlyWindow(start, today);
      var w := Window(start, EarlierOf(LastOfMonth(start), today));
      var next := FirstOfNextMonth(start);
      MonthlyWindowsTile(next, today);
      if next == Next(w.hi) {
        TilesCons(w, MonthlyWindows(next, today), today);
      } else {
        assert MonthlyWindows(next, today) == [];
        assert Ord(Next(w.hi)) > Ord(today);
        TilesCons(w, MonthlyWindows(next, today), today);
      }
    }
  }

  lemma {:induction false} MonthlyWindowsShaped(start: CalDate, today: CalDate)
    ensures MonthlyShaped(MonthlyWindows(start, today), today)
    decreases Ord(today) - Ord(start)
  {
    if Ord(start) <= Ord(today) {
      FirstMonthlyWindow(start, today);
      var w := Window(start, EarlierOf(LastOfMonth(start), today));
      var rest := MonthlyWindows(FirstOfNextMonth(start), today);
      MonthlyWindowsShaped(FirstOfNextMonth(start), today);
      var ws := [w] + rest;
      forall i | 0 <= i < |ws|
        ensures MonthOf(ws[i].lo) == MonthOf(ws[i].hi) && (ws[i].hi == LastOfMonth(ws[i].lo) || ws[i].hi == today)
      {
        if i > 0 { assert ws[i] == rest[i - 1]; }
      }
      assert MonthlyShaped(ws, today);
    }
  }

  /** A day between `d` and the end of its month lies in the month of `d`. */
  lemma MonthOfUpTo(d: CalDate, x: CalDate)
    requires Ord(d) <= Ord(x) <= Ord(LastOfMonth(d))
    ensures MonthOf(x) == MonthOf(d)
  {
    var first := FirstOfMonth(d);
    var n := Ord(x) - Ord(first) + 1;
    assert 1 <= n <= DaysInMonth(d.year, d.month);
    var y: CalDate := Date(d.year, d.month, n);
    assert Ord(y) == Ord(x);
    OrdInjective(x, y);
  }

  /** The first window of the two-week loop. */
  lemma FirstTwoWeekWindow(start: CalDate, today: CalDate)
    requires Ord(start) <= Ord(today)
    ensures var w := Window(start, EarlierOf(Fortnight(start), today));
      && TwoWeekWindows(start, today) == [w] + TwoWeekWindows(Next(w.hi), today)
      && Ord(w.lo) <= Ord(w.hi) <= Ord(today)
      && Ord(w.hi) - Ord(w.lo) <= 14 && (w.hi == Fortnight(w.lo) || w.hi == today)
  {
  }

  lemma {:induction false} TwoWeekWindowsTile(start: CalDate, today: CalDate)
    ensures Tiles(TwoWeekWindows(start, today), start, today)
    decreases Ord(today) - Ord(start)
  {
    if Ord(start) <= Ord(today) {
      FirstTwoWeekWindow(start, today);
      var w := Window(start, EarlierOf(Fortnight(start), today));
      TwoWeekWindowsTile(Next(w.hi), today);
      TilesCons(w, TwoWeekWindows(Next(w.hi), today), today);
    }
  }

  lemma {:induction false} TwoWeekWindowsShaped(start: CalDate, today: CalDate)
    ensures TwoWeekShaped(TwoWeekWindows(start, today), today)
    decreases Ord(today) - Ord(start)
  {
    if Ord(start) <= Ord(today) {
      var hi := EarlierOf(Fortnight(start), today);
      var w := Window(start, hi);
      var rest := TwoWeekWindows(Next(hi), today);
      FirstTwoWeekWindow(start, today);
      TwoWeekWindowsShaped(Next(hi), today);
      ShapedCons(w, rest, today);
    }
  }

  lemma ShapedCons(w: Window, rest: seq<Window>, today: CalDate)
    requires TwoWeekShapedWindow(w, today)
    requires TwoWeekShaped(rest, today)
    ensures TwoWeekShaped([w] + rest, today)
  {
    AllCons(x => TwoWeekShapedWindow(x, today), w, rest);
  }

  /** A property of every element survives putting one more element, that has it, in front. */
  lemma AllCons<T>(P: T -> bool, x: T, xs: seq<T>)
    requires P(x) && forall i :: 0 <= i < |xs| ==> P(xs[i])
    ensures forall i :: 0 <= i < |[x] + xs| ==> P(([x] + xs)[i])
  {
    forall i | 0 <= i < |[x] + xs| ensures P(([x] + xs)[i]) {
      if i > 0 { assert ([x] + xs)[i] == xs[i - 1]; }
    }
  }

  /** Consecutive tiling windows move forward: a later window starts after an earlier one ends. */
  lemma {:induction false} TilesAscend(ws: seq<Window>, start: CalDate, today: CalDate, i: int, j: int)
    requires Tiles(ws, start, today)
    requires 0 <= i < j < |ws|
    ensures Ord(ws[i].hi) < Ord(ws[j].lo)
    decreases j - i
  {
    if i + 1 < j {
      TilesAscend(ws, start, today, i + 1, j);
    }
  }

  lemma {:induction false} TilesCoverDay(ws: seq<Window>, start: CalDate, today: CalDate, x: CalDate)
    returns (k: nat)
    requires Tiles(ws, start, today)
    requires Ord(start) <= Ord(x) <= Ord(today)
    ensures k < |ws| && Covers(ws[k], x)
    decreases |ws|
  {
    if Ord(x) <= Ord(ws[0].hi) {
      k := 0;
    } else {
      assert |ws| > 1;
      var rest := ws[1..];
      assert Tiles(rest, ws[1].lo, today) by {
        assert rest[0] == ws[1] && rest[|rest| - 1] == ws[|ws| - 1];
        forall i | 0 <= i < |rest| - 1 ensures rest[i + 1].lo == Next(rest[i].hi) {
          assert rest[i] == ws[i + 1] && rest[i + 1] == ws[i + 2];
        }
      }
      var k' := TilesCoverDay(rest, ws[1].lo, today, x);
      k := k' + 1;
    }
  }

  /**
   * The windows of a tiling cover every day from `start` to `today`, each
   * day exactly once.
   */
  lemma TilesCoverEachDayOnce(ws: seq<Window>, start: CalDate, today: CalDate, x: CalDate)
    requires Tiles(ws, start, today)
    requires Ord(start) <= Ord(x) <= Ord(today)
    ensures exists k :: 0 <= k < |ws| && Covers(ws[k], x)
    ensures forall i, j :: 0 <= i < |ws| && 0 <= j < |ws| && Covers(ws[i], x) && Covers(ws[j], x) ==> i == j
  {
    var k := TilesCoverDay(ws, start, today, x);
    forall i, j | 0 <= i < |ws| && 0 <= j < |ws| && Covers(ws[i], x) && Covers(ws[j], x)
      ensures i == j
    {
      if i < j { TilesAscend(ws, start, today, i, j); }
      if j < i { TilesAscend(ws, start, today, j, i); }
    }
  }

  /** No day outside `[start, today]` is fetched. */
  lemma {:induction false} TilesStayInRange(ws: seq<Window>, start: CalDate, today: CalDate, k: int)
    requires Tiles(ws, start, today) && 0 <= k < |ws|
    ensures Ord(start) <= Ord(ws[k].lo) && Ord(ws[k].hi) <= Ord(today)
  {
    if k > 0 { TilesAscend(ws, start, today, 0, k); }
    if k < |ws| - 1 { TilesAscend(ws, start, today, k, |ws| - 1); }
  }

  // ------------------------------------------------------------ the fetches

  /**
   * Trial path: the rows of all windows in order, or None as soon as one
   * window's request raises (the exception leaves `fetch_trial_data`).
   */
  function FetchAll<R>(fetch: (CalDate, CalDate) -> Option<seq<R>>, ws: seq<Window>): Option<seq<R>>
    decreases |ws|
  {
    if ws == [] then Some([])
    else
      match FetchAll(fetch, ws[..|ws| - 1])
      case None => None
      case Some(acc) =>
        match fetch(ws[|ws| - 1].lo, ws[|ws| - 1].hi)
        case None => None
        case Some(rs) => Some(acc + rs)
  }

  /** Country path: the rows of all windows in order; a failed window adds nothing. */
  function FetchSkipping<R>(fetch: (CalDate, CalDate) -> Option<seq<R>>, ws: seq<Window>): seq<R>
    decreases |ws|
  {
    if ws == [] then []
    else FetchSkipping(fetch, ws[..|ws| - 1]) + fetch(ws[|ws| - 1].lo, ws[|ws| - 1].hi).GetOr([])
  }

  lemma {:induction false} FetchAllFailsOnAnyFailure<R>(fetch: (CalDate, CalDate) -> Option<seq<R>>, ws: seq<Window>)
    ensures FetchAll(fetch, ws).None? <==> exists k :: 0 <= k < |ws| && fetch(ws[k].lo, ws[k].hi).None?
    decreases |ws|
  {
    if ws != [] {
      var init := ws[..|ws| - 1];
      FetchAllFailsOnAnyFailure(fetch, init);
      if exists k :: 0 <= k < |init| && fetch(init[k].lo, init[k].hi).None? {
        var k :| 0 <= k < |init| && fetch(init[k].lo, init[k].hi).None?;
        assert ws[k] == init[k];
      }
      if exists k :: 0 <= k < |ws| && fetch(ws[k].lo, ws[k].hi).None? {
        var k :| 0 <= k < |ws| && fetch(ws[k].lo, ws[k].hi).None?;
        if k < |init| { assert ws[k] == init[k]; }
      }
    }
  }

  /** A window whose request fails contributes exactly what a missing window would. */
  lemma {:induction false} FailedWindowContributesNothing<R>(fetch: (CalDate, CalDate) -> Option<seq<R>>, ws: seq<Window>, k: int)
    requires 0 <= k < |ws| && fetch(ws[k].lo, ws[k].hi).None?
    ensures FetchSkipping(fetch, ws) == FetchSkipping(fetch, ws[..k] + ws[k + 1..])
    decreases |ws|
  {
    var init := ws[..|ws| - 1];
    if k == |ws| - 1 {
      assert ws[..k] + ws[k + 1..] == init;
    } else {
      FailedWindowContributesNothing(fetch, init, k);
      var shorter := ws[..k] + ws[k + 1..];
      assert shorter[..|shorter| - 1] == init[..k] + init[k + 1..];
      assert shorter[|shorter| - 1] == ws[|ws| - 1];
    }
  }

  lemma {:induction false} FetchAllExtends<R>(fetch: (CalDate, CalDate) -> Option<seq<R>>, done: seq<Window>, rest: seq<Window>)
    requires FetchAll(fetch, done).None?
    ensures FetchAll(fetch, done + rest).None?
    decreases |rest|
  {
    if rest != [] {
      var ws := done + rest;
      FetchAllExtends(fetch, done, rest[..|rest| - 1]);
      assert ws[..|ws| - 1] == done + rest[..|rest| - 1];
      assert FetchAll(fetch, ws[..|ws| - 1]).None?;
    } else {
      assert done + rest == done;
    }
  }

  lemma MonthlyStep(start: CalDate, current: CalDate, today: CalDate, done: seq<Window>)
    requires Ord(current) <= Ord(today)
    requires MonthlyWindows(start, today) == done + MonthlyWindows(current, today)
    ensures MonthlyWindows(start, today)
      == (done + [Window(current, EarlierOf(LastOfMonth(current), today))]) + MonthlyWindows(FirstOfNextMonth(current), today)
  {
    var w := Window(current, EarlierOf(LastOfMonth(current), today));
    var rest := MonthlyWindows(FirstOfNextMonth(current), today);
    assert MonthlyWindows(current, today) == [w] + rest by { FirstMonthlyWindow(current, today); }
    SnocAssoc(done, w, rest);
  }

  lemma TwoWeekStep(start: CalDate, current: CalDate, today: CalDate, done: seq<Window>)
    requires Ord(current) <= Ord(today)
    requires TwoWeekWindows(start, today) == done + TwoWeekWindows(current, today)
    ensures TwoWeekWindows(start, today)
      == (done + [Window(current, EarlierOf(Fortnight(current), today))])
         + TwoWeekWindows(Next(EarlierOf(Fortnight(current), today)), today)
  {
    var hi := EarlierOf(Fortnight(current), today);
    var w := Window(current, hi);
    var rest := TwoWeekWindows(Next(hi), today);
    assert TwoWeekWindows(current, today) == [w] + rest by { FirstTwoWeekWindow(current, today); }
    SnocAssoc(done, w, rest);
  }

  lemma SnocAssoc(done: seq<Window>, w: Window, rest: seq<Window>)
    ensures done + ([w] + rest) == (done + [w]) + rest
  {
  }

  lemma FetchAllSnoc<R>(fetch: (CalDate, CalDate) -> Option<seq<R>>, done: seq<Window>, w: Window, all: seq<R>)
    requires FetchAll(fetch, done) == Some(all)
    ensures FetchAll(fetch, done + [w])
      == if fetch(w.lo, w.hi).Some? then Some(all + fetch(w.lo, w.hi).value) else None
  {
    assert (done + [w])[..|done + [w]| - 1] == done;
  }

  lemma FetchSkippingSnoc<R>(fetch: (CalDate, CalDate) -> Option<seq<R>>, done: seq<Window>, w: Window)
    ensures FetchSkipping(fetch, done + [w]) == FetchSkipping(fetch, done) + fetch(w.lo, w.hi).GetOr([])
  {
    assert (done + [w])[..|done + [w]| - 1] == done;
  }

  /** The monthly loop of `fetch_trial_data`. */
  method FetchMonthly<R>(start: CalDate, today: CalDate, fetch: (CalDate, CalDate) -> Option<seq<R>>)
    returns (rows: Option<seq<R>>)
    ensures rows == FetchAll(fetch, MonthlyWindows(start, today))
  {
    var all: seq<R> := [];
    var current := start;
    ghost var done: seq<Window> := [];
    while Ord(current) <= Ord(today)
      invariant MonthlyWindows(start, today) == done + MonthlyWindows(current, today)
      invariant FetchAll(fetch, done) == Some(all)
      decreases Ord(today) - Ord(current)
    {
      var nextMonth := FirstOfNextMonth(current);
      var periodEnd := EarlierOf(LastOfMonth(current), today);
      var got := fetch(current, periodEnd);
      MonthlyStep(start, current, today, done);
      FetchAllSnoc(fetch, done, Window(current, periodEnd), all);
      if got.None? {
        FetchAllExtends(fetch, done + [Window(current, periodEnd)], MonthlyWindows(nextMonth, today));
        return None;
      }
      all := all + got.value;
      done := done + [Window(current, periodEnd)];
      current := nextMonth;
    }
    assert done + [] == done;
    rows := Some(all);
  }

  /** The two-week loop of `fetch_country_revenue`: a failed window is reported and skipped. */
  method FetchTwoWeekly<R>(start: CalDate, today: CalDate, fetch: (CalDate, CalDate) -> Option<seq<R>>)
    returns (rows: seq<R>)
    ensures rows == FetchSkipping(fetch, TwoWeekWindows(start, today))
  {
    rows := [];
    var current := start;
    ghost var done: seq<Window> := [];
    while Ord(current) <= Ord(today)
      invariant TwoWeekWindows(start, today) == done + TwoWeekWindows(current, today)
      invariant FetchSkipping(fetch, done) == rows
      decreases Ord(today) - Ord(current)
    {
      var periodEnd := EarlierOf(Fortnight(current), today);
      var got := fetch(current, periodEnd);
      TwoWeekStep(start, current, today, done);
      FetchSkippingSnoc(fetch, done, Window(current, periodEnd));
      if got.Some? {
        rows := rows + got.value;
      }
      done := done + [Window(current, periodEnd)];
      current := Next(periodEnd);
    }
    assert done + [] == done;
  }
}
