/**
 * flickrGetDailyPhotoViews.py:42-56 and 109-138: `validate_date`, and the prompt loop
 * that reads a start and an end date until it gets an acceptable range.
 *
 * Console input is the sequence of lines the user types (`input()` returns each without
 * its newline); running out of lines is Python's EOFError, which the script does not
 * catch (None here). The wall clock `datetime.now().date()` is the parameter `today`.
 */
module RangePrompt {
  import opened Wrappers
  import opened Calendar
  import opened DateFormat
  import opened FileHandler

  /** `validate_date(date_string)`: `strptime(date_string, '%Y-%m-%d')` does not raise ValueError. */
  predicate ValidateDate(s: string)
    ensures ValidateDate(s) ==> ParseDate(s).Some? && ValidDate(ParseDate(s).value)
  {
    ParseDate(s).Some?
  }

  /**
   * `validate_date` accepts a rendered `YYYY-MM-DD` exactly when it names a calendar
   * date: a month outside 1..12, a day past the end of its month (February 29th of a
   * common year among them) or year 0 is refused.
   */
  lemma ValidateFormatted(d: Date)
    requires 0 <= d.year <= 9999 && 0 <= d.month <= 99 && 0 <= d.day <= 99
    ensures ValidateDate(FormatDate(d)) <==> ValidDate(d)
  {
    ParseFormatDate(d);
  }

  /**
   * A string `validate_date` accepts is 8 to 10 characters of digits, '-' and ' ',
   * so it holds no '_', and its fields form a calendar date.
   */
  lemma ValidatedShape(s: string)
    requires ValidateDate(s)
    ensures 8 <= |s| <= 10
    ensures forall i :: 0 <= i < |s| ==> IsDigit(s[i]) || s[i] == '-' || s[i] == ' '
    ensures NoUnderscore(s)
    ensures ValidDate(ParseDate(s).value)
  {
    var mk := MonthField(s[5..]).value;
    var k := mk.1;
    MonthFieldShape(s[5..]);
    DayFieldShape(s[6 + k..]);
    forall i | 0 <= i < |s|
      ensures IsDigit(s[i]) || s[i] == '-' || s[i] == ' '
    {
      if 5 <= i < 5 + k {
        assert s[i] == s[5..][i - 5];
      } else if 6 + k <= i {
        assert s[i] == s[6 + k..][i - (6 + k)];
      }
    }
  }

  lemma MonthFieldShape(r: string)
    requires MonthField(r).Some?
    ensures var k := MonthField(r).value.1;
      (k == 1 || k == 2) && k <= |r| && forall i :: 0 <= i < k ==> IsDigit(r[i])
  {
  }

  lemma DayFieldShape(r: string)
    requires DayField(r).Some?
    ensures 1 <= |r| <= 2 && forall i :: 0 <= i < |r| ==> IsDigit(r[i]) || r[i] == ' '
  {
  }

  /** A range the prompt loop accepted: the two strings as typed and the dates they parse to. */
  datatype Range = Range(startStr: string, endStr: string, start: Date, end: Date)

  /** `confirm.lower() != 'y'` is false exactly for these two answers. */
  predicate Confirms(answer: string) {
    answer == "y" || answer == "Y"
  }

  /** The prompt loop from input line `pos` on. */
  function PromptFrom(lines: seq<string>, pos: nat, today: Date): (r: Option<Range>)
    ensures r.Some? ==> ValidDate(r.value.start) && ValidDate(r.value.end) && !Before(r.value.end, r.value.start)
    decreases |lines| - pos
  {
    if pos >= |lines| then None
    else if !ValidateDate(lines[pos]) then PromptFrom(lines, pos + 1, today)
    else if pos + 1 >= |lines| then None
    else if !ValidateDate(lines[pos + 1]) then PromptFrom(lines, pos + 2, today)
    else
      var sd := ParseDate(lines[pos]).value;
      var ed := ParseDate(lines[pos + 1]).value;
      if Before(ed, sd) then PromptFrom(lines, pos + 2, today)
      else if Before(today, sd) || Before(today, ed) then
        if pos + 2 >= |lines| then None
        else if !Confirms(lines[pos + 2]) then PromptFrom(lines, pos + 3, today)
        else Some(Range(lines[pos], lines[pos + 1], sd, ed))
      else Some(Range(lines[pos], lines[pos + 1], sd, ed))
  }

  /** The `while True` loop of lines 109-138. */
  method PromptRange(lines: seq<string>, today: Date) returns (r: Option<Range>)
    ensures r == PromptFrom(lines, 0, today)
  {
    var pos := 0;
    while true
      invariant PromptFrom(lines, pos, today) == PromptFrom(lines, 0, today)
      decreases |lines| - pos
    {
      if pos >= |lines| {
        return None;
      }
      var startStr := lines[pos];
      pos := pos + 1;
      if !ValidateDate(startStr) {
        // invalid start date format
        continue;
      }
      if pos >= |lines| {
        return None;
      }
      var endStr := lines[pos];
      pos := pos + 1;
      if !ValidateDate(endStr) {
        // invalid end date format
        continue;
      }
      var startDate := ParseDate(startStr).value;
      var endDate := ParseDate(endStr).value;
      if Before(endDate, startDate) {
        // end date cannot be before start date
        continue;
      }
      if Before(today, startDate) || Before(today, endDate) {
        if pos >= |lines| {
          return None;
        }
        var confirm := lines[pos];
        pos := pos + 1;
        if !Confirms(confirm) {
          continue;
        }
      }
      return Some(Range(startStr, endStr, startDate, endDate));
    }
  }

  /**
   * What the prompt loop accepts: two consecutive lines that `validate_date` accepts,
   * parsed to the range's dates, the end not before the start; when either date is
   * after `today`, the next line confirmed it.
   */
  lemma {:induction false} PromptAccepts(lines: seq<string>, pos: nat, today: Date)
    requires PromptFrom(lines, pos, today).Some?
    ensures var r := PromptFrom(lines, pos, today).value;
      && ValidateDate(r.startStr) && ValidateDate(r.endStr)
      && ParseDate(r.startStr) == Some(r.start) && ParseDate(r.endStr) == Some(r.end)
      && ValidDate(r.start) && ValidDate(r.end)
      && !Before(r.end, r.start) && Ordinal(r.start) <= Ordinal(r.end)
      && exists k :: pos <= k && k + 1 < |lines| && lines[k] == r.startStr && lines[k + 1] == r.endStr
           && ((Before(today, r.start) || Before(today, r.end)) ==> k + 2 < |lines| && Confirms(lines[k + 2]))
    decreases |lines| - pos
  {
    if !ValidateDate(lines[pos]) {
      PromptAccepts(lines, pos + 1, today);
    } else if !ValidateDate(lines[pos + 1]) {
      PromptAccepts(lines, pos + 2, today);
    } else if Before(ParseDate(lines[pos + 1]).value, ParseDate(lines[pos]).value) {
      PromptAccepts(lines, pos + 2, today);
    } else if (Before(today, ParseDate(lines[pos]).value) || Before(today, ParseDate(lines[pos + 1]).value)) && !Confirms(lines[pos + 2]) {
      PromptAccepts(lines, pos + 3, today);
    } else {
      var r := PromptFrom(lines, pos, today).value;
      OrderIsOrdinalOrder(r.end, r.start);
      assert lines[pos] == r.startStr && lines[pos + 1] == r.endStr;
    }
  }

  /** Two valid, ordered, not-future dates typed first are accepted at once, as typed. */
  lemma PromptAcceptsFirstGoodPair(lines: seq<string>, today: Date)
    requires |lines| >= 2 && ValidateDate(lines[0]) && ValidateDate(lines[1])
    requires var sd := ParseDate(lines[0]).value; var ed := ParseDate(lines[1]).value;
      !Before(ed, sd) && !Before(today, sd) && !Before(today, ed)
    ensures PromptFrom(lines, 0, today) == Some(Range(lines[0], lines[1], ParseDate(lines[0]).value, ParseDate(lines[1]).value))
  {
  }
}
