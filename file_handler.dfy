/**
 * file_handler.py: the name of the output file for a date range, and appending one
 * date's photo rows to that file.
 *
 * The file is a value: `Missing`, or `Present` with the rows it holds. A row is a
 * sequence of fields, each a string or Python's None (which the `csv` module writes
 * as an empty field); quoting and the tab delimiter are not part of the model.
 */
module FileHandler {
  import opened Wrappers
  import opened FlickrApi

  type Row = seq<Option<string>>

  datatype CsvFile = Missing | Present(rows: seq<Row>)

  /** The rows a file holds; a file that does not exist holds none. */
  function RowsOf(f: CsvFile): seq<Row> {
    if f.Present? then f.rows else []
  }

  /** CSV_COLUMNS. */
  const CsvColumns: seq<string> := ["Date", "Photo ID", "Photo Title", "Daily Views", "Daily Favorites", "Secret", "Server"]

  /** CSV_COLUMNS as the row `writer.writerow` writes. */
  function HeaderRow(): (h: Row)
    ensures |h| == |CsvColumns| == 7
    ensures forall i :: 0 <= i < |h| ==> h[i] == Some(CsvColumns[i])
  {
    seq(|CsvColumns|, i requires 0 <= i < |CsvColumns| => Some(CsvColumns[i]))
  }

  /**
   * `get_csv_filepath(start_date_str, end_date_str)`: "flickr_stats_", then the start
   * string, then "_to_" and the end string when the two differ, then ".csv".
   */
  function CsvFilepath(startStr: string, endStr: string): (path: string)
    ensures |path| >= 17 && path[..13] == "flickr_stats_" && path[|path| - 4..] == ".csv"
    ensures path[13..] == if startStr == endStr then startStr + ".csv" else startStr + ("_to_" + endStr + ".csv")
  {
    if startStr == endStr then "flickr_stats_" + startStr + ".csv"
    else "flickr_stats_" + startStr + "_to_" + endStr + ".csv"
  }

  /**
   * `photo.get('stats', {})` can be read from: an absent `stats` gives `{}`, a null one
   * gives None, whose `.get` raises AttributeError.
   */
  predicate StatsReadable(p: Photo) {
    !p.stats.Null?
  }

  /** `photo.get('stats', {}).get(key)` for the two keys of `stats`. */
  function Views(p: Photo): Option<string>
    requires StatsReadable(p)
  {
    if p.stats.Given? then Get(p.stats.value.views) else None
  }

  function Favorites(p: Photo): Option<string>
    requires StatsReadable(p)
  {
    if p.stats.Given? then Get(p.stats.value.favorites) else None
  }

  /**
   * The row `write_to_csv` writes for one photo: one field per column of CSV_COLUMNS,
   * the date first; a key the photo lacks or holds null becomes None, and a photo
   * without `stats` has neither views nor favorites.
   */
  function PhotoRow(date: string, p: Photo): (r: Row)
    requires StatsReadable(p)
    ensures |r| == |CsvColumns|
    ensures r[0] == Some(date)
    ensures r[1] == Get(p.id) && r[2] == Get(p.title) && r[5] == Get(p.secret) && r[6] == Get(p.server)
    ensures p.stats.Absent? ==> r[3] == None && r[4] == None
    ensures p.stats.Given? ==> r[3] == Get(p.stats.value.views) && r[4] == Get(p.stats.value.favorites)
  {
    [Some(date), Get(p.id), Get(p.title), Views(p), Favorites(p), Get(p.secret), Get(p.server)]
  }

  /** How many photos of `data` get a row before one with a null `stats` raises. */
  function ReadablePrefix(data: seq<Photo>): (k: nat)
    ensures k <= |data|
    ensures forall i :: 0 <= i < k ==> StatsReadable(data[i])
    ensures k < |data| ==> !StatsReadable(data[k])
  {
    if data == [] || !StatsReadable(data[0]) then 0
    else
      var k := 1 + ReadablePrefix(data[1..]);
      assert forall i :: 1 <= i < k ==> data[i] == data[1..][i - 1];
      k
  }

  /**
   * `write_to_csv(filepath, data, date_str)` on the file as it was: the file exists
   * afterwards, what it held is kept unchanged, CSV_COLUMNS is written first exactly
   * when it did not exist, and one photo row per entry of `data` follows, in order, up
   * to the first photo whose `stats` is null: the AttributeError it raises is caught at
   * the end of the function, and the rows written before it stay in the file.
   */
  method WriteToCsv(file: CsvFile, data: seq<Photo>, date: string) returns (after: CsvFile)
    ensures after.Present?
    ensures var kept := RowsOf(file);
      var header := if file.Missing? then [HeaderRow()] else [];
      var k := ReadablePrefix(data);
      && |after.rows| == |kept| + |header| + k
      && after.rows[..|kept|] == kept
      && after.rows[|kept|..|kept| + |header|] == header
      && (forall i :: 0 <= i < k ==> after.rows[|kept| + |header| + i] == PhotoRow(date, data[i]))
  {
    var fileExists := file.Present?;
    var rows := RowsOf(file);
    if !fileExists {
      rows := rows + [HeaderRow()];
    }
    ghost var before := rows;
    ghost var k := ReadablePrefix(data);
    for i := 0 to |data|
      invariant i <= k
      invariant |rows| == |before| + i
      invariant rows[..|before|] == before
      invariant forall j :: 0 <= j < i ==> rows[|before| + j] == PhotoRow(date, data[j])
    {
      if !StatsReadable(data[i]) {
        // AttributeError, caught by `except Exception`: the photos after it get no row
        return Present(rows);
      }
      rows := rows + [PhotoRow(date, data[i])];
    }
    after := Present(rows);
  }

  predicate NoUnderscore(s: string) {
    forall i :: 0 <= i < |s| ==> s[i] != '_'
  }

  /**
   * For date strings without '_' (every string `validate_date` accepts), the file name
   * tells which range it was made for: the single-date and the range forms never
   * coincide, and the same name comes only from the same start and end.
   */
  lemma FilepathInjective(s1: string, e1: string, s2: string, e2: string)
    requires NoUnderscore(s1) && NoUnderscore(s2)
    requires CsvFilepath(s1, e1) == CsvFilepath(s2, e2)
    ensures s1 == s2 && e1 == e2
  {
    var r := CsvFilepath(s1, e1)[13..];
    if s1 == e1 && s2 == e2 {
      SingleNameInjective(s1, s2);
    } else if s1 != e1 && s2 != e2 {
      RangeNameInjective(s1, e1, s2, e2);
    } else if s1 == e1 {
      SingleIsNotRange(s1, s2, e2);
      assert false;
    } else {
      SingleIsNotRange(s2, s1, e1);
      assert false;
    }
  }

  lemma SingleNameInjective(s1: string, s2: string)
    requires s1 + ".csv" == s2 + ".csv"
    ensures s1 == s2
  {
    assert |s1| == |s2|;
    assert s1 == (s1 + ".csv")[..|s1|];
    assert s2 == (s2 + ".csv")[..|s2|];
  }

  lemma RangeNameInjective(s1: string, e1: string, s2: string, e2: string)
    requires NoUnderscore(s1) && NoUnderscore(s2)
    requires s1 + ("_to_" + e1 + ".csv") == s2 + ("_to_" + e2 + ".csv")
    ensures s1 == s2 && e1 == e2
  {
    SplitAtUnderscore(s1, "_to_" + e1 + ".csv", s2, "_to_" + e2 + ".csv");
    assert e1 == ("_to_" + e1 + ".csv")[4..|e1| + 4];
    assert e2 == ("_to_" + e2 + ".csv")[4..|e2| + 4];
  }

  /** A single-date tail `s + ".csv"` never equals a range tail, whose first '_' follows its start date. */
  lemma SingleIsNotRange(s: string, s2: string, e2: string)
    requires NoUnderscore(s) && NoUnderscore(s2)
    ensures s + ".csv" != s2 + ("_to_" + e2 + ".csv")
  {
    NoUnderscoreAppend(s, ".csv");
    UnderscoreAt(s2, "_to_" + e2 + ".csv");
  }

  lemma NoUnderscoreAppend(a: string, b: string)
    requires NoUnderscore(a) && NoUnderscore(b)
    ensures NoUnderscore(a + b)
  {
  }

  /** Two strings free of '_', each followed by a tail that starts with '_', split the same way only when they are equal. */
  lemma SplitAtUnderscore(a: string, x: string, b: string, y: string)
    requires NoUnderscore(a) && NoUnderscore(b)
    requires |x| > 0 && x[0] == '_' && |y| > 0 && y[0] == '_'
    requires a + x == b + y
    ensures a == b && x == y
  {
    UnderscoreAt(a, x);
    UnderscoreAt(b, y);
    assert |a| == |b|;
    assert a == (a + x)[..|a|] && b == (b + y)[..|b|];
    assert x == (a + x)[|a|..] && y == (b + y)[|b|..];
  }

  /** In `a + x` with `a` free of '_' and `x` starting with '_', the first '_' sits at |a|. */
  lemma UnderscoreAt(a: string, x: string)
    requires NoUnderscore(a) && |x| > 0 && x[0] == '_'
    ensures (a + x)[|a|] == '_'
    ensures forall i :: 0 <= i < |a| ==> (a + x)[i] != '_'
  {
  }
}
