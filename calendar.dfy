/**
 * Proleptic Gregorian calendar arithmetic, as Python's `datetime.date` performs it:
 * years 1 to 9999, leap years every fourth year except centuries not divisible by 400,
 * and the day ordinal that `date.toordinal()` returns (0001-01-01 is day 1).
 */
module Calendar {

  const MinYear: int := 1
  const MaxYear: int := 9999

  datatype Date = Date(year: int, month: int, day: int)

  /** `datetime.date.max`: no date follows it. */
  const MaxDate: Date := Date(MaxYear, 12, 31)

  predicate IsLeap(y: int) {
    y % 4 == 0 && (y % 100 != 0 || y % 400 == 0)
  }

  function DaysInMonth(y: int, m: int): (n: int)
    requires 1 <= m <= 12
    ensures 28 <= n <= 31
    ensures m == 2 ==> (n == 29 <==> IsLeap(y))
  {
    if m == 2 then (if IsLeap(y) then 29 else 28)
    else if m == 4 || m == 6 || m == 9 || m == 11 then 30
    else 31
  }

  function DaysInYear(y: int): int {
    if IsLeap(y) then 366 else 365
  }

  /** A date the `datetime` module can represent. */
  predicate ValidDate(d: Date) {
    MinYear <= d.year <= MaxYear && 1 <= d.month <= 12 && 1 <= d.day <= DaysInMonth(d.year, d.month)
  }

  /** Number of days in the years 1 .. y-1. */
  function DaysBeforeYear(y: int): int
    requires y >= 1
  {
    if y == 1 then 0 else DaysBeforeYear(y - 1) + DaysInYear(y - 1)
  }

  /** Number of days in the months 1 .. m-1 of year y. */
  function DaysBeforeMonth(y: int, m: int): int
    requires 1 <= m <= 12
  {
    var common :=
      if m == 1 then 0 else if m == 2 then 31 else if m == 3 then 59
      else if m == 4 then 90 else if m == 5 then 120 else if m == 6 then 151
      else if m == 7 then 181 else if m == 8 then 212 else if m == 9 then 243
      else if m == 10 then 273 else if m == 11 then 304 else 334;
    common + (if m > 2 && IsLeap(y) then 1 else 0)
  }

  /** `date.toordinal()`. */
  function Ordinal(d: Date): int
    requires ValidDate(d)
  {
    DaysBeforeYear(d.year) + DaysBeforeMonth(d.year, d.month) + d.day
  }

  /** Chronological order: Python compares dates field by field. */
  predicate Before(a: Date, b: Date) {
    a.year < b.year || (a.year == b.year && (a.month < b.month || (a.month == b.month && a.day < b.day)))
  }

  /** `d + timedelta(days=1)`; defined on every date except `MaxDate`, where Python raises OverflowError. */
  function Succ(d: Date): (r: Date)
    requires ValidDate(d) && d != MaxDate
    ensures ValidDate(r) && Ordinal(r) == Ordinal(d) + 1 && Before(d, r)
  {
    if d.day < DaysInMonth(d.year, d.month) then
      d.(day := d.day + 1)
    else if d.month < 12 then
      MonthStep(d.year, d.month);
      Date(d.year, d.month + 1, 1)
    else
      MonthStep(d.year, 12);
      Date(d.year + 1, 1, 1)
  }

  // ---------------------------------------------------------------------------
  // Arithmetic facts behind the ordinal

  lemma MonthStep(y: int, m: int)
    requires 1 <= m <= 12
    ensures DaysBeforeMonth(y, m) + DaysInMonth(y, m) == if m < 12 then DaysBeforeMonth(y, m + 1) else DaysInYear(y)
  {
  }

  lemma {:induction false} DaysBeforeYearMonotone(y1: int, y2: int)
    requires 1 <= y1 <= y2
    ensures DaysBeforeYear(y1) <= DaysBeforeYear(y2)
    decreases y2 - y1
  {
    if y1 < y2 {
      DaysBeforeYearMonotone(y1, y2 - 1);
    }
  }

  lemma DaysBeforeMonthMonotone(y: int, m1: int, m2: int)
    requires 1 <= m1 < m2 <= 12
    ensures DaysBeforeMonth(y, m1) + DaysInMonth(y, m1) <= DaysBeforeMonth(y, m2)
  {
  }

  /** A date lies inside its year: its ordinal is past the previous years and within this one. */
  lemma OrdinalInYear(d: Date)
    requires ValidDate(d)
    ensures DaysBeforeYear(d.year) < Ordinal(d) <= DaysBeforeYear(d.year) + DaysInYear(d.year)
  {
    MonthStep(d.year, d.month);
    if d.month < 12 {
      DaysBeforeMonthMonotone(d.year, d.month, 12);
      MonthStep(d.year, 12);
    }
  }

  lemma BeforeOrdinal(a: Date, b: Date)
    requires ValidDate(a) && ValidDate(b) && Before(a, b)
    ensures Ordinal(a) < Ordinal(b)
  {
    if a.year < b.year {
      OrdinalInYear(a);
      OrdinalInYear(b);
      DaysBeforeYearMonotone(a.year + 1, b.year);
    } else if a.month < b.month {
      DaysBeforeMonthMonotone(a.year, a.month, b.month);
    }
  }

  /** The calendar order Python uses to compare dates is the order of their ordinals. */
  lemma OrderIsOrdinalOrder(a: Date, b: Date)
    requires ValidDate(a) && ValidDate(b)
    ensures Before(a, b) <==> Ordinal(a) < Ordinal(b)
    ensures a == b <==> Ordinal(a) == Ordinal(b)
  {
    if Before(a, b) {
      BeforeOrdinal(a, b);
    } else if a != b {
      assert Before(b, a);
      BeforeOrdinal(b, a);
    }
  }

  /** Number of days from `a` to `b` (`(b - a).days`). */
  function DaysBetween(a: Date, b: Date): int
    requires ValidDate(a) && ValidDate(b)
  {
    Ordinal(b) - Ordinal(a)
  }

  /** No date lies strictly between a date and its successor. */
  lemma SuccIsNext(d: Date, x: Date)
    requires ValidDate(d) && d != MaxDate && ValidDate(x)
    ensures !(Before(d, x) && Before(x, Succ(d)))
  {
    OrderIsOrdinalOrder(d, x);
    OrderIsOrdinalOrder(x, Succ(d));
  }

  /** Only `MaxDate` lacks a successor: every other valid date is before it. */
  lemma MaxDateIsLast(d: Date)
    requires ValidDate(d)
    ensures d == MaxDate || Before(d, MaxDate)
  {
  }
}
