/**
 * The two conversions the driver script applies to dates:
 * `datetime.strptime(s, '%Y-%m-%d')` and `date.strftime('%Y-%m-%d')`, as CPython's
 * `_strptime` module implements them. The directive patterns are
 *   %Y  four digits
 *   %m  1[0-2] | 0[1-9] | [1-9]
 *   %d  3[01] | [12]\d | 0[1-9] | [1-9] | " "[1-9]
 * the whole string must be consumed, and the fields must form a date the
 * `datetime` module can represent.
 */
module DateFormat {
  import opened Wrappers
  import opened Calendar

  predicate IsDigit(c: char) {
    '0' <= c <= '9'
  }

  predicate IsNonZeroDigit(c: char) {
    '1' <= c <= '9'
  }

  function DigitValue(c: char): (n: int)
    requires IsDigit(c)
    ensures 0 <= n <= 9
  {
    c as int - '0' as int
  }

  function DigitChar(n: int): (c: char)
    requires 0 <= n <= 9
    ensures IsDigit(c) && DigitValue(c) == n
    ensures IsNonZeroDigit(c) <==> n != 0
  {
    ('0' as int + n) as char
  }

  /** Zero-padded two-digit rendering (strftime's %m and %d). */
  function Pad2(n: int): (s: string)
    requires 0 <= n <= 99
    ensures |s| == 2
  {
    [DigitChar(n / 10), DigitChar(n % 10)]
  }

  /** Zero-padded four-digit rendering, what strftime's %Y gives for years 1000 to 9999. */
  function Pad4(n: int): (s: string)
    requires 0 <= n <= 9999
    ensures |s| == 4
  {
    [DigitChar(n / 1000), DigitChar(n / 100 % 10), DigitChar(n / 10 % 10), DigitChar(n % 10)]
  }

  /**
   * The fields printed as `YYYY-MM-DD`, with the year zero-padded to four digits; on a
   * valid date from year 1000 on this is `strftime('%Y-%m-%d')`.
   */
  function FormatDate(d: Date): (s: string)
    requires 0 <= d.year <= 9999 && 0 <= d.month <= 99 && 0 <= d.day <= 99
    ensures |s| == 10 && s[4] == '-' && s[7] == '-'
  {
    Pad4(d.year) + "-" + Pad2(d.month) + "-" + Pad2(d.day)
  }

  predicate FourDigits(s: string) {
    |s| >= 4 && IsDigit(s[0]) && IsDigit(s[1]) && IsDigit(s[2]) && IsDigit(s[3])
  }

  function Number4(s: string): int
    requires FourDigits(s)
  {
    1000 * DigitValue(s[0]) + 100 * DigitValue(s[1]) + 10 * DigitValue(s[2]) + DigitValue(s[3])
  }

  /**
   * The %m alternative the regular expression engine picks at the start of `r`, as
   * (value, length). When a two-character alternative matches, the character after it is
   * a digit, so backtracking to the one-character alternative could never be followed by
   * the '-' the format requires: taking the first match is exact.
   */
  function MonthField(r: string): Option<(int, int)> {
    if |r| >= 2 && r[0] == '1' && '0' <= r[1] <= '2' then Some((10 + DigitValue(r[1]), 2))
    else if |r| >= 2 && r[0] == '0' && IsNonZeroDigit(r[1]) then Some((DigitValue(r[1]), 2))
    else if |r| >= 1 && IsNonZeroDigit(r[0]) then Some((DigitValue(r[0]), 1))
    else None
  }

  /**
   * The %d field when it must span all of `r`: the first alternative that matches
   * is taken, and any character left over is "unconverted data".
   */
  function DayField(r: string): Option<int> {
    if |r| == 2 && r[0] == '3' && (r[1] == '0' || r[1] == '1') then Some(30 + DigitValue(r[1]))
    else if |r| == 2 && (r[0] == '1' || r[0] == '2') && IsDigit(r[1]) then Some(10 * DigitValue(r[0]) + DigitValue(r[1]))
    else if |r| == 2 && r[0] == '0' && IsNonZeroDigit(r[1]) then Some(DigitValue(r[1]))
    else if |r| == 1 && IsNonZeroDigit(r[0]) then Some(DigitValue(r[0]))
    else if |r| == 2 && r[0] == ' ' && IsNonZeroDigit(r[1]) then Some(DigitValue(r[1]))
    else None
  }

  /** `datetime.strptime(s, '%Y-%m-%d')`: the date, or None where Python raises ValueError. */
  function ParseDate(s: string): (r: Option<Date>)
    ensures r.Some? ==> ValidDate(r.value)
  {
    if !FourDigits(s) || |s| < 5 || s[4] != '-' then None
    else match MonthField(s[5..])
      case None => None
      case Some(mk) =>
        var (m, k) := mk;
        if |s| <= 5 + k || s[5 + k] != '-' then None
        else match DayField(s[6 + k..])
          case None => None
          case Some(d) =>
            var date := Date(Number4(s), m, d);
            if ValidDate(date) then Some(date) else None
  }

  // ---------------------------------------------------------------------------

  lemma Number4Pad4(n: int)
    requires 0 <= n <= 9999
    ensures FourDigits(Pad4(n)) && Number4(Pad4(n)) == n
  {
    var h, t := n / 100, n / 10;
    assert n == 10 * t + n % 10;
    assert t == 10 * h + t % 10;
    assert t % 10 == n / 10 % 10;
    assert h == 10 * (n / 1000) + h % 10;
    assert h % 10 == n / 100 % 10;
  }

  lemma MonthFieldPad2(m: int, rest: string)
    requires 0 <= m <= 99
    ensures var f := MonthField(Pad2(m) + rest);
            if 1 <= m <= 12 then f == Some((m, 2)) else f.None? || f.value.1 == 1
  {
  }

  lemma DayFieldPad2(d: int)
    requires 0 <= d <= 99
    ensures DayField(Pad2(d)) == if 1 <= d <= 31 then Some(d) else None
  {
  }

  /**
   * Parsing a rendered `YYYY-MM-DD` string gives back exactly the date when it is a
   * calendar date, and fails otherwise (month 0 or above 12, a day beyond the month's
   * length, February 29th of a common year, year 0).
   */
  lemma ParseFormatDate(d: Date)
    requires 0 <= d.year <= 9999 && 0 <= d.month <= 99 && 0 <= d.day <= 99
    ensures ParseDate(FormatDate(d)) == if ValidDate(d) then Some(d) else None
  {
    var s := FormatDate(d);
    Number4Pad4(d.year);
    assert s[..4] == Pad4(d.year);
    assert s[5..] == Pad2(d.month) + "-" + Pad2(d.day);
    assert s[8..] == Pad2(d.day);
    DayFieldPad2(d.day);
    MonthFieldPad2(d.month, "-" + Pad2(d.day));
  }
}
