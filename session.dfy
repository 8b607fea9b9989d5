/**
 * flickrGetDailyPhotoViews.py:109-213 as one run of the script: read the range, list
 * its dates, choose the output file, and process every date into it. The dates come
 * from the loop as written, so a range that ends on 9999-12-31 ends the run with
 * OverflowError before any file is looked at.
 *
 * The file system is a map from path to the rows of the file there; a path that is
 * not in the map has no file. Only the output file is ever written.
 */
module Session {
  import opened Wrappers
  import opened Calendar
  import opened DateFormat
  import opened FlickrApi
  import opened FileHandler
  import opened DateRange
  import opened RangePrompt
  import opened DailyRun

  type FileSystem = map<string, seq<Row>>

  /** `os.path.exists(path)`, and what `open(path, 'a')` finds there. */
  function FileAt(fs: FileSystem, path: string): CsvFile {
    if path in fs then Present(fs[path]) else Missing
  }

  /** The file system once `file` is what the run left at `path`. */
  function Store(fs: FileSystem, path: string, file: CsvFile): FileSystem {
    if file.Present? then fs[path := file.rows] else fs
  }

  /**
   * How a run of the script ends. The first two end it with an uncaught exception
   * before any file is looked at, so the file system is as it was.
   */
  datatype Ending =
    | InputEnded                   // input() ran out of lines: EOFError
    | DateOverflow(range: Range)   // the range ends on 9999-12-31: OverflowError at line 145
    | Finished(range: Range, dates: seq<string>, path: string, fs: FileSystem, used: nat)

  /** The script run against console input `lines`, today's date, the remote service, and file system `fs`. */
  function SessionSpec(remote: Remote, cfg: RetryConfig, lines: seq<string>, today: Date, fs: FileSystem, start: nat): Ending {
    var r := PromptFrom(lines, 0, today);
    if r.None? then InputEnded
    else if r.value.end == MaxDate then DateOverflow(r.value)
    else
      var range := r.value;
      var dates := FormatAll(Days(range.start, range.end));
      var path := CsvFilepath(range.startStr, range.endStr);
      var file0 := FileAt(fs, path);
      var t := RunFrom(DateRunOf(remote, cfg), dates, 0, start, RunTrace(file0, file0.Present?, 0, []));
      Finished(range, dates, path, Store(fs, path, t.file), t.used)
  }

  /** The script from the prompt on, with the date list built by the loop as written. */
  method RunSession(remote: Remote, cfg: RetryConfig, lines: seq<string>, today: Date, fs: FileSystem, start: nat)
    returns (result: Ending)
    ensures result == SessionSpec(remote, cfg, lines, today, fs, start)
  {
    var r := PromptRange(lines, today);
    if r.None? {
      return InputEnded;
    }
    var range := r.value;
    var listed := EnumerateAsWritten(range.start, range.end);
    if listed.None? {
      return DateOverflow(range);
    }
    var dates := listed.value;
    var path := CsvFilepath(range.startStr, range.endStr);
    var file0 := FileAt(fs, path);
    var file, used, _ := ProcessDates(remote, cfg, dates, start, file0);
    return Finished(range, dates, path, Store(fs, path, file), used);
  }

  /**
   * A run ends in OverflowError exactly when the prompt accepts a range that ends on
   * 9999-12-31, and otherwise every accepted range is processed; no input makes the run
   * process a range that ends there.
   */
  lemma SessionOverflow(remote: Remote, cfg: RetryConfig, lines: seq<string>, today: Date, fs: FileSystem, start: nat)
    ensures var e := SessionSpec(remote, cfg, lines, today, fs, start);
      var r := PromptFrom(lines, 0, today);
      && (e.InputEnded? <==> r.None?)
      && (e.DateOverflow? <==> r.Some? && r.value.end == MaxDate)
      && (e.Finished? <==> r.Some? && r.value.end != MaxDate)
      && (!e.InputEnded? ==> e.range == r.value)
      && (e.Finished? ==> e.range.end != MaxDate && e.range.start != MaxDate)
  {
    var r := PromptFrom(lines, 0, today);
    if r.Some? && r.value.end != MaxDate {
      MaxDateIsLast(r.value.start);
    }
  }

  /** The range 9999-12-31 to 9999-12-31, typed and confirmed, stops the run at line 145. */
  lemma LastDayOverflows(remote: Remote, cfg: RetryConfig, today: Date, fs: FileSystem, start: nat)
    ensures SessionSpec(remote, cfg, ["9999-12-31", "9999-12-31", "y"], today, fs, start).DateOverflow?
  {
    var lines := ["9999-12-31", "9999-12-31", "y"];
    assert FormatDate(MaxDate) == lines[0];
    ParseFormatDate(MaxDate);
    assert PromptFrom(lines, 0, today).Some?;
  }

  /** A processed date's string is a rendered date, ten characters long, so no data row is the header row. */
  lemma FullRowIsNotHeader(date: string, r: Row)
    requires |date| == 10 && FullRow(date, r)
    ensures r != HeaderRow()
  {
    assert HeaderRow()[0] == Some("Date");
  }

  /**
   * The output file after the run over `dates`, each a rendered date: it exists only if
   * it existed or some date was processed; what it held stays in front; a file the run
   * created starts with the header; and every row after those is a full row of one of
   * the dates, never the header row.
   */
  lemma RunFileRows(remote: Remote, cfg: RetryConfig, dates: seq<string>, start: nat, file0: CsvFile)
    requires forall j :: 0 <= j < |dates| ==> |dates[j]| == 10
    ensures var t := RunFrom(DateRunOf(remote, cfg), dates, 0, start, RunTrace(file0, file0.Present?, 0, []));
      var kept := RowsOf(file0);
      var h := if file0.Present? then 0 else 1;
      && (t.file.Missing? ==> file0.Missing?)
      && (t.file.Present? ==>
            && |kept| + h <= |t.file.rows|
            && t.file.rows[..|kept|] == kept
            && (file0.Missing? ==> t.file.rows[0] == HeaderRow())
            && forall k :: |kept| + h <= k < |t.file.rows| ==>
                 t.file.rows[k] != HeaderRow() && exists j :: 0 <= j < |dates| && FullRow(dates[j], t.file.rows[k]))
  {
    var run := DateRunOf(remote, cfg);
    var t := RunFrom(run, dates, 0, start, RunTrace(file0, file0.Present?, 0, []));
    RunShape(run, dates, start, file0);
    OutcomeRowsAreFull(remote, cfg, dates, start);
    var added := OutcomeRows(t.outcomes);
    forall r | r in added
      ensures r != HeaderRow() && exists j :: 0 <= j < |dates| && FullRow(dates[j], r)
    {
      var j :| 0 <= j < |dates| && FullRow(dates[j], r);
      FullRowIsNotHeader(dates[j], r);
    }
    var kept := RowsOf(file0);
    if HasProcessed(t.outcomes) {
      var h: seq<Row> := if file0.Present? then [] else [HeaderRow()];
      var rows := kept + h + added;
      assert t.file == Present(rows);
      assert rows[..|kept|] == kept;
      forall k | |kept| + |h| <= k < |rows|
        ensures rows[k] in added
      {
        assert rows[k] == added[k - |kept| - |h|];
      }
    } else {
      assert t.file == file0;
    }
  }

  /**
   * One run of the script writes only the output file; a file that existed keeps its
   * rows in front and gets no second header; a file the run creates starts with the
   * header, which occurs nowhere else in it; every other row is a full row of one of the
   * range's dates.
   */
  lemma SessionFiles(remote: Remote, cfg: RetryConfig, lines: seq<string>, today: Date, fs: FileSystem, start: nat)
    requires SessionSpec(remote, cfg, lines, today, fs, start).Finished?
    ensures var f := SessionSpec(remote, cfg, lines, today, fs, start);
      forall p :: p != f.path ==> (p in f.fs <==> p in fs) && (p in fs ==> f.fs[p] == fs[p])
    ensures var f := SessionSpec(remote, cfg, lines, today, fs, start);
      f.path in fs ==>
        && f.path in f.fs
        && |fs[f.path]| <= |f.fs[f.path]|
        && f.fs[f.path][..|fs[f.path]|] == fs[f.path]
        && forall k :: |fs[f.path]| <= k < |f.fs[f.path]| ==>
             f.fs[f.path][k] != HeaderRow() && exists j :: 0 <= j < |f.dates| && FullRow(f.dates[j], f.fs[f.path][k])
    ensures var f := SessionSpec(remote, cfg, lines, today, fs, start);
      (f.path !in fs && f.path in f.fs) ==>
        && |f.fs[f.path]| >= 1
        && f.fs[f.path][0] == HeaderRow()
        && forall k :: 1 <= k < |f.fs[f.path]| ==>
             f.fs[f.path][k] != HeaderRow() && exists j :: 0 <= j < |f.dates| && FullRow(f.dates[j], f.fs[f.path][k])
  {
    var f := SessionSpec(remote, cfg, lines, today, fs, start);
    var days := Days(f.range.start, f.range.end);
    forall j | 0 <= j < |f.dates|
      ensures |f.dates[j]| == 10
    {
      assert f.dates[j] == FormatDate(days[j]);
    }
    RunFileRows(remote, cfg, f.dates, start, FileAt(fs, f.path));
  }

  /** A run that got a range wrote its rows to the file named after the two dates as typed. */
  lemma SessionPath(remote: Remote, cfg: RetryConfig, lines: seq<string>, today: Date, fs: FileSystem, start: nat)
    requires SessionSpec(remote, cfg, lines, today, fs, start).Finished?
    ensures var f := SessionSpec(remote, cfg, lines, today, fs, start);
      && f.path == CsvFilepath(f.range.startStr, f.range.endStr)
      && (forall s, e :: NoUnderscore(s) && NoUnderscore(e) && CsvFilepath(s, e) == f.path ==> s == f.range.startStr && e == f.range.endStr)
      && f.dates == FormatAll(Days(f.range.start, f.range.end))
      && |f.dates| == DaysBetween(f.range.start, f.range.end) + 1
  {
    var f := SessionSpec(remote, cfg, lines, today, fs, start);
    PromptAccepts(lines, 0, today);
    ValidatedShape(f.range.startStr);
    ValidatedShape(f.range.endStr);
    DaysShape(f.range.start, f.range.end);
    forall s, e | NoUnderscore(s) && NoUnderscore(e) && CsvFilepath(s, e) == f.path
      ensures s == f.range.startStr && e == f.range.endStr
    {
      FilepathInjective(s, e, f.range.startStr, f.range.endStr);
    }
  }
}
