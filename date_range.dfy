/**
 * flickrGetDailyPhotoViews.py:141-145: the list of dates to process, every calendar
 * day from the start date to the end date inclusive, each rendered as `YYYY-MM-DD`.
 *
 * `Days` is the intended list; the loop as the script writes it (`EnumerateAsWritten`)
 * steps one day past the end date after appending it, which Python's `datetime`
 * cannot do when the end date is 9999-12-31; `Enumerate` is the corrected loop.
 */
module DateRange {
  import opened Wrappers
  import opened Calendar
  import opened DateFormat

  /** Every date from `a` to `b` inclusive; empty when `b` is before `a`. */
  function Days(a: Date, b: Date): (r: seq<Date>)
    requires ValidDate(a) && ValidDate(b)
    ensures forall i :: 0 <= i < |r| ==> ValidDate(r[i])
    decreases Ordinal(b) - Ordinal(a)
  {
    if Before(b, a) then []
    else if a == b then [a]
    else
      var next := SuccBefore(a, b);
      [a] + Days(next, b)
  }

  /** The day after `a`, when `a` is before `b`: it exists and is not after `b`. */
  function SuccBefore(a: Date, b: Date): (n: Date)
    requires ValidDate(a) && ValidDate(b) && Before(a, b)
    ensures ValidDate(n) && n == Succ(a) && Ordinal(n) == Ordinal(a) + 1 && Ordinal(n) <= Ordinal(b)
  {
    MaxDateIsLast(a);
    BeforeOrdinal(a, b);
    Succ(a)
  }

  /** `strftime('%Y-%m-%d')` applied to each date. */
  function FormatAll(ds: seq<Date>): (r: seq<string>)
    requires forall i :: 0 <= i < |ds| ==> ValidDate(ds[i])
    ensures |r| == |ds|
  {
    seq(|ds|, i requires 0 <= i < |ds| && ValidDate(ds[i]) => FormatDate(ds[i]))
  }

  /** Every valid date has an ordinal at most that of 9999-12-31. */
  lemma OrdinalAtMostMax(d: Date)
    requires ValidDate(d)
    ensures Ordinal(d) <= Ordinal(MaxDate)
  {
    MaxDateIsLast(d);
    if d != MaxDate {
      BeforeOrdinal(d, MaxDate);
    }
  }

  /** The i-th date of `Days(a, b)` is the date whose ordinal is that of `a` plus i. */
  lemma {:induction false} DaysOrdinals(a: Date, b: Date)
    requires ValidDate(a) && ValidDate(b)
    ensures var r := Days(a, b);
      && |r| == (if Before(b, a) then 0 else DaysBetween(a, b) + 1)
      && (forall i :: 0 <= i < |r| ==> ValidDate(r[i]) && Ordinal(r[i]) == Ordinal(a) + i)
    decreases Ordinal(b) - Ordinal(a)
  {
    OrderIsOrdinalOrder(a, b);
    if !Before(b, a) && a != b {
      MaxDateIsLast(a);
      var n := Succ(a);
      DaysOrdinals(n, b);
      OrderIsOrdinalOrder(n, b);
      var r := Days(a, b);
      assert r == [a] + Days(n, b);
      forall i | 0 < i < |r|
        ensures ValidDate(r[i]) && Ordinal(r[i]) == Ordinal(a) + i
      {
        assert r[i] == Days(n, b)[i - 1];
      }
    }
  }

  /**
   * The dates to process: they start with the start date and end with the end date,
   * each is the calendar successor of the one before, they strictly ascend, there are
   * `(end - start).days + 1` of them, and every date between the two is among them.
   */
  lemma DaysShape(a: Date, b: Date)
    requires ValidDate(a) && ValidDate(b)
    ensures var r := Days(a, b);
      && |r| == (if Before(b, a) then 0 else DaysBetween(a, b) + 1)
      && (r != [] <==> !Before(b, a))
      && (r != [] ==> r[0] == a && r[|r| - 1] == b)
      && (forall i :: 0 <= i < |r| - 1 ==> ValidDate(r[i]) && r[i] != MaxDate && r[i + 1] == Succ(r[i]))
      && (forall i, j :: 0 <= i < j < |r| ==> Before(r[i], r[j]))
      && (forall x :: ValidDate(x) && !Before(x, a) && !Before(b, x) ==> x in r)
  {
    var r := Days(a, b);
    DaysOrdinals(a, b);
    OrderIsOrdinalOrder(a, b);
    if r != [] {
      OrderIsOrdinalOrder(r[0], a);
      OrderIsOrdinalOrder(r[|r| - 1], b);
    }
    forall i | 0 <= i < |r| - 1
      ensures ValidDate(r[i]) && r[i] != MaxDate && r[i + 1] == Succ(r[i])
    {
      OrdinalAtMostMax(r[i + 1]);
      OrderIsOrdinalOrder(r[i + 1], Succ(r[i]));
    }
    forall i, j | 0 <= i < j < |r|
      ensures Before(r[i], r[j])
    {
      OrderIsOrdinalOrder(r[i], r[j]);
    }
    forall x | ValidDate(x) && !Before(x, a) && !Before(b, x)
      ensures x in r
    {
      OrderIsOrdinalOrder(x, a);
      OrderIsOrdinalOrder(b, x);
      var k := Ordinal(x) - Ordinal(a);
      OrderIsOrdinalOrder(x, r[k]);
    }
  }

  /** One step of the enumeration: a date not after the end contributes itself, then the dates after it. */
  lemma DaysStep(a: Date, b: Date)
    requires ValidDate(a) && ValidDate(b) && !Before(b, a)
    ensures Ordinal(a) <= Ordinal(b)
    ensures a == b ==> Days(a, b) == [a]
    ensures a != b ==> a != MaxDate && !Before(b, Succ(a)) && Days(a, b) == [a] + Days(Succ(a), b)
  {
    OrderIsOrdinalOrder(a, b);
    if a != b {
      MaxDateIsLast(a);
      OrderIsOrdinalOrder(Succ(a), b);
    }
  }

  /** The loop invariant `whole == done + Days(current, end)` carried over one iteration. */
  lemma EnumerateStep(end: Date, done: seq<Date>, current: Date, whole: seq<Date>)
    requires ValidDate(end) && ValidDate(current) && !Before(end, current)
    requires whole == done + Days(current, end)
    ensures Ordinal(current) <= Ordinal(end)
    ensures current == end ==> whole == done + [current]
    ensures current != end ==> current != MaxDate && !Before(end, Succ(current))
    ensures current != end ==> whole == (done + [current]) + Days(Succ(current), end)
  {
    DaysStep(current, end);
    if current != end {
      AppendAssoc(done, [current], Days(Succ(current), end));
    }
  }

  lemma FormatAllAppend(ds: seq<Date>, d: Date)
    requires forall i :: 0 <= i < |ds| ==> ValidDate(ds[i])
    requires ValidDate(d)
    ensures FormatAll(ds + [d]) == FormatAll(ds) + [FormatDate(d)]
  {
  }

  /**
   * The loop of lines 141-145 as written: it appends the current date while it is not
   * after the end date, then adds one day. Adding one day to 9999-12-31 raises
   * OverflowError, which the script does not catch (None here).
   */
  method EnumerateAsWritten(start: Date, end: Date) returns (dates: Option<seq<string>>)
    requires ValidDate(start) && ValidDate(end)
    ensures dates.None? <==> end == MaxDate && !Before(end, start)
    ensures dates.Some? ==> dates.value == FormatAll(Days(start, end))
  {
    var out: seq<string> := [];
    ghost var whole := Days(start, end);
    ghost var done: seq<Date> := [];
    var current := start;
    while !Before(end, current)
      invariant ValidDate(current)
      invariant forall i :: 0 <= i < |done| ==> ValidDate(done[i])
      invariant out == FormatAll(done)
      invariant whole == done + Days(current, end)
      invariant done == [] ==> current == start
      invariant done != [] ==> !Before(end, start)
      invariant done != [] && Before(end, current) ==> end != MaxDate
      decreases Ordinal(end) - Ordinal(current) + 1
    {
      EnumerateStep(end, done, current, whole);
      FormatAllAppend(done, current);
      done := done + [current];
      out := out + [FormatDate(current)];
      if current == MaxDate {
        MaxDateIsLast(end);
        return None;
      }
      var next := Succ(current);
      assert Before(end, next) ==> current == end;
      current := next;
    }
    AsWrittenExit(start, end, done, current);
    return Some(out);
  }

  /** The corrected loop: it stops once the end date has been appended. */
  method Enumerate(start: Date, end: Date) returns (dates: seq<string>)
    requires ValidDate(start) && ValidDate(end)
    ensures dates == FormatAll(Days(start, end))
  {
    dates := [];
    ghost var whole := Days(start, end);
    ghost var done: seq<Date> := [];
    var current := start;
    while !Before(end, current)
      invariant ValidDate(current)
      invariant forall i :: 0 <= i < |done| ==> ValidDate(done[i])
      invariant dates == FormatAll(done)
      invariant whole == done + Days(current, end)
      decreases Ordinal(end) - Ordinal(current)
    {
      EnumerateStep(end, done, current, whole);
      FormatAllAppend(done, current);
      done := done + [current];
      dates := dates + [FormatDate(current)];
      if current == end {
        return;
      }
      current := Succ(current);
    }
    DaysEmpty(current, end);
  }

  /** Where the as-written loop ends normally, the range does not end on 9999-12-31. */
  lemma AsWrittenExit(start: Date, end: Date, done: seq<Date>, current: Date)
    requires ValidDate(start) && ValidDate(end) && ValidDate(current) && Before(end, current)
    requires Days(start, end) == done + Days(current, end)
    requires done == [] ==> current == start
    requires done != [] ==> end != MaxDate
    ensures done == Days(start, end)
    ensures !(end == MaxDate && !Before(end, start))
  {
    DaysEmpty(current, end);
  }

  lemma DaysEmpty(a: Date, b: Date)
    requires ValidDate(a) && ValidDate(b) && Before(b, a)
    ensures Days(a, b) == []
  {
  }
}
