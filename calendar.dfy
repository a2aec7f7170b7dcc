/**
 * The proleptic Gregorian calendar as Python's `datetime` implements it:
 * dates as (year, month, day) triples, days-in-month with the leap-year rule,
 * the chronological day number used for comparisons and `timedelta`
 * arithmetic, and the month key `YYYY-MM` (the first seven characters of an
 * ISO date).
 */
module Calendar {

  datatype Date = Date(year: int, month: int, day: int) {
    /** A real calendar day: the only kind of value `datetime` can hold. */
    predicate Valid() {
      1 <= year && 1 <= month <= 12 && 1 <= day <= DaysInMonth(year, month)
    }
  }

  type CalDate = d: Date | d.Valid() witness Date(2025, 9, 1)

  /** The `YYYY-MM` key of a month. */
  datatype MonthKey = MonthKey(year: int, month: int)

  /** A key `int(month_key.split('-'))` can turn back into a real month. */
  predicate ValidMonth(mk: MonthKey) {
    1 <= mk.year && 1 <= mk.month <= 12
  }

  predicate IsLeapYear(y: int) {
    y % 4 == 0 && (y % 100 != 0 || y % 400 == 0)
  }

  function DaysInMonth(y: int, m: int): (n: int)
    requires 1 <= m <= 12
    ensures 28 <= n <= 31
    ensures n == 29 <==> m == 2 && IsLeapYear(y)
  {
    if m == 2 then (if IsLeapYear(y) then 29 else 28)
    else if m == 4 || m == 6 || m == 9 || m == 11 then 30
    else 31
  }

  function YearLength(y: int): int {
    if IsLeapYear(y) then 366 else 365
  }

  /** Days in the years 1 .. y-1. */
  function DaysBeforeYear(y: int): int
    requires 1 <= y
  {
    if y == 1 then 0 else DaysBeforeYear(y - 1) + YearLength(y - 1)
  }

  /** Days in the months 1 .. m-1 of year y. */
  function DaysBeforeMonth(y: int, m: int): (n: int)
    requires 1 <= m <= 13
    ensures 0 <= n
  {
    if m == 1 then 0 else DaysBeforeMonth(y, m - 1) + DaysInMonth(y, m - 1)
  }

  /**
   * Each month before `m` has 28 to 31 days.  (A lemma rather than an ensures
   * of `DaysBeforeMonth`, so that the bound is only in scope where it is used.)
   */
  lemma {:induction false} DaysBeforeMonthBounds(y: int, m: int)
    requires 1 <= m <= 13
    ensures 28 * (m - 1) <= DaysBeforeMonth(y, m) <= 31 * (m - 1)
    decreases m
  {
    if m > 1 { DaysBeforeMonthBounds(y, m - 1); }
  }

  lemma YearHasItsLength(y: int)
    ensures DaysBeforeMonth(y, 13) == YearLength(y)
  {
    var leap := if IsLeapYear(y) then 1 else 0;
    assert DaysBeforeMonth(y, 2) == 31;
    assert DaysBeforeMonth(y, 3) == 59 + leap;
    assert DaysBeforeMonth(y, 4) == 90 + leap;
    assert DaysBeforeMonth(y, 5) == 120 + leap;
    assert DaysBeforeMonth(y, 6) == 151 + leap;
    assert DaysBeforeMonth(y, 7) == 181 + leap;
    assert DaysBeforeMonth(y, 8) == 212 + leap;
    assert DaysBeforeMonth(y, 9) == 243 + leap;
    assert DaysBeforeMonth(y, 10) == 273 + leap;
    assert DaysBeforeMonth(y, 11) == 304 + leap;
    assert DaysBeforeMonth(y, 12) == 334 + leap;
  }

  /** Day number of a date: 1 for 0001-01-01, like `date.toordinal()`. */
  function Ord(d: CalDate): int {
    DaysBeforeYear(d.year) + DaysBeforeMonth(d.year, d.month) + d.day
  }

  function MonthOf(d: Date): MonthKey {
    MonthKey(d.year, d.month)
  }

  function FirstOfMonth(d: CalDate): (r: CalDate)
    ensures MonthOf(r) == MonthOf(d) && r.day == 1
  {
    Date(d.year, d.month, 1)
  }

  function LastOfMonth(d: CalDate): (r: CalDate)
    ensures MonthOf(r) == MonthOf(d) && d.day <= r.day
    ensures Ord(r) - Ord(d) == DaysInMonth(d.year, d.month) - d.day
  {
    Date(d.year, d.month, DaysInMonth(d.year, d.month))
  }

  /**
   * The first day of the following month, as the source builds it with
   * `replace(year=year + 1, month=1, day=1)` in December and
   * `replace(month=month + 1, day=1)` otherwise.
   */
  function FirstOfNextMonth(d: CalDate): (r: CalDate)
    ensures r.day == 1
    ensures Ord(r) == Ord(LastOfMonth(d)) + 1
  {
    if d.month == 12 then
      YearHasItsLength(d.year);
      Date(d.year + 1, 1, 1)
    else
      Date(d.year, d.month + 1, 1)
  }

  /** The day after `d` (`d + timedelta(days=1)`). */
  function Next(d: CalDate): (r: CalDate)
    ensures Ord(r) == Ord(d) + 1
    ensures r.day == 1 || MonthOf(r) == MonthOf(d)
  {
    if d.day < DaysInMonth(d.year, d.month) then Date(d.year, d.month, d.day + 1)
    else FirstOfNextMonth(d)
  }

  /** `d + timedelta(days=14)`. */
  function Fortnight(d: CalDate): (r: CalDate)
    ensures Ord(r) == Ord(d) + 14
  {
    AddDays(d, 14)
  }

  /** `d + timedelta(days=n)`. */
  function AddDays(d: CalDate, n: nat): (r: CalDate)
    ensures Ord(r) == Ord(d) + n
    decreases n
  {
    if n == 0 then d else AddDays(Next(d), n - 1)
  }

  /**
   * The source's own days-in-month computation (difference of the first days
   * of two consecutive months, as `timedelta.days`).
   */
  function DaysInMonthBySubtraction(mk: MonthKey): int
    requires 1 <= mk.year && 1 <= mk.month <= 12
  {
    var first: CalDate := Date(mk.year, mk.month, 1);
    var next: CalDate := if mk.month == 12 then Date(mk.year + 1, 1, 1) else Date(mk.year, mk.month + 1, 1);
    Ord(next) - Ord(first)
  }

  lemma {:induction false} SubtractionIsDaysInMonth(mk: MonthKey)
    requires 1 <= mk.year && 1 <= mk.month <= 12
    ensures DaysInMonthBySubtraction(mk) == DaysInMonth(mk.year, mk.month)
  {
    if mk.month == 12 {
      YearHasItsLength(mk.year);
      assert DaysBeforeYear(mk.year + 1) == DaysBeforeYear(mk.year) + YearLength(mk.year);
    } else {
      assert DaysBeforeMonth(mk.year, mk.month + 1)
        == DaysBeforeMonth(mk.year, mk.month) + DaysInMonth(mk.year, mk.month);
    }
  }

  /** Ord is injective on calendar dates, so comparing day numbers compares dates. */
  lemma OrdInjective(a: CalDate, b: CalDate)
    requires Ord(a) == Ord(b)
    ensures a == b
  {
    if a.year != b.year {
      if a.year < b.year { OrdYearBound(a, b.year); } else { OrdYearBound(b, a.year); }
    } else if a.month != b.month {
      if a.month < b.month { MonthBound(a.year, a.month, b.month); } else { MonthBound(a.year, b.month, a.month); }
    }
  }

  lemma MonthBound(y: int, m1: int, m2: int)
    requires 1 <= m1 < m2 <= 12
    ensures DaysBeforeMonth(y, m1) + DaysInMonth(y, m1) <= DaysBeforeMonth(y, m2)
    decreases m2 - m1
  {
    if m1 + 1 < m2 { MonthBound(y, m1 + 1, m2); }
  }

  lemma DaysBeforeYearMono(y1: int, y2: int)
    requires 1 <= y1 <= y2
    ensures DaysBeforeYear(y1) + (if y1 < y2 then YearLength(y1) else 0) <= DaysBeforeYear(y2)
    decreases y2 - y1
  {
    if y1 < y2 - 1 { DaysBeforeYearMono(y1, y2 - 1); }
  }

  /** Every date of a year lies before the first day of any later year. */
  lemma OrdYearBound(a: CalDate, y: int)
    requires a.year < y
    ensures Ord(a) < DaysBeforeYear(y) + 1
  {
    DaysBeforeYearMono(a.year, y);
    YearHasItsLength(a.year);
    if a.month < 12 { MonthBound(a.year, a.month, 12); }
  }
}

/** The orders in which the source sorts its keys. */
module DateOrder {
  import opened Calendar
  import opened Ordering

  /**
   * The order of ISO date strings under Python's `sorted`: for four-digit
   * years and two-digit months and days, string order is the lexicographic
   * order of the (year, month, day) triple.
   */
  predicate DateLess(a: CalDate, b: CalDate) {
    a.year < b.year || (a.year == b.year && (a.month < b.month || (a.month == b.month && a.day < b.day)))
  }

  /** The order of `YYYY-MM` month keys under `sorted`. */
  predicate MonthLess(a: MonthKey, b: MonthKey) {
    a.year < b.year || (a.year == b.year && a.month < b.month)
  }

  /** Sorting ISO date strings sorts the days chronologically. */
  lemma DateLessIsChronological(a: CalDate, b: CalDate)
    ensures DateLess(a, b) <==> Ord(a) < Ord(b)
  {
    if DateLess(a, b) {
      LexBefore(a, b);
    } else if a != b {
      LexBefore(b, a);
    }
  }

  lemma LexBefore(a: CalDate, b: CalDate)
    requires DateLess(a, b)
    ensures Ord(a) < Ord(b)
  {
    if a.year < b.year {
      OrdYearBound(a, b.year);
    } else if a.month < b.month {
      MonthBound(a.year, a.month, b.month);
    }
  }

  lemma DateLessIsStrictTotalOrder()
    ensures IsStrictTotalOrder(DateLess)
  {
  }

  lemma MonthLessIsStrictTotalOrder()
    ensures IsStrictTotalOrder(MonthLess)
  {
  }
}
