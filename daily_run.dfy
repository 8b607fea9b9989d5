/**
 * flickrGetDailyPhotoViews.py:157-211: the main part of the driver script. For each date
 * of the range it asks for page 1 to learn the page count, opens the output file for
 * appending (writing the header row only while the shared `file_exists_for_header` flag
 * is false), then asks for pages 1, 2, ... again and writes one row per photo. A date
 * whose first call fails or raises is skipped; a page that fails or raises ends its date.
 *
 * The output file is a value (`CsvFile`) passed in and handed back; every remote
 * call goes through `make_api_call_with_retry`.
 */
module DailyRun {
  import opened Wrappers
  import opened FlickrApi
  import opened RetryRaise
  import opened FileHandler

  // ---------------------------------------------------------------------------
  // Writing the rows of one page (lines 196-203)

  /**
   * Every key lines 197-202 subscript is there and `stats` is an object: an absent key
   * raises KeyError, a null `stats` raises TypeError. A null value of any other key is
   * read as None.
   */
  predicate Complete(p: Photo) {
    !p.id.Absent? && !p.title.Absent? && !p.server.Absent? && !p.secret.Absent?
    && p.stats.Given? && !p.stats.value.views.Absent? && !p.stats.value.favorites.Absent?
  }

  /** How many photos of a page are written before an incomplete photo raises. */
  function CompletePrefix(ps: seq<Photo>): (k: nat)
    ensures k <= |ps|
  {
    if ps == [] then 0
    else if Complete(ps[0]) then 1 + CompletePrefix(ps[1..])
    else 0
  }

  /** The photos before the prefix's end are complete, and the one at its end, if any, is not. */
  lemma {:induction false} CompletePrefixIsFirstIncomplete(ps: seq<Photo>)
    ensures var k := CompletePrefix(ps);
      && (forall i :: 0 <= i < k ==> Complete(ps[i]))
      && (k < |ps| ==> !Complete(ps[k]))
    decreases |ps|
  {
    if ps != [] && Complete(ps[0]) {
      CompletePrefixIsFirstIncomplete(ps[1..]);
      var k := CompletePrefix(ps);
      forall i | 1 <= i < k
        ensures Complete(ps[i])
      {
        assert ps[i] == ps[1..][i - 1];
      }
      if k < |ps| {
        assert ps[k] == ps[1..][k - 1];
      }
    }
  }

  /** The `stats` object the script reads, on a photo that has one. */
  function StatsOf(p: Photo): Stats {
    if p.stats.Given? then p.stats.value else Stats(Absent, Absent)
  }

  /** The list of line 203; a null value is None, which the `csv` module writes as an empty field. */
  function DriverRow(date: string, p: Photo): Row {
    [Some(date), Get(p.id), Get(p.title), Get(StatsOf(p).views), Get(StatsOf(p).favorites), Get(p.secret), Get(p.server)]
  }

  function Rows(date: string, ps: seq<Photo>): (r: seq<Row>)
    ensures |r| == |ps|
  {
    seq(|ps|, i requires 0 <= i < |ps| => DriverRow(date, ps[i]))
  }

  /**
   * The row the script builds for a complete photo is the row `write_to_csv` builds for
   * it; a field is empty exactly where the photo holds null.
   */
  lemma DriverRowIsPhotoRow(date: string, p: Photo)
    requires Complete(p)
    ensures StatsReadable(p) && DriverRow(date, p) == PhotoRow(date, p)
    ensures var r := DriverRow(date, p);
      && |r| == |CsvColumns| && r[0] == Some(date)
      && (r[1].None? <==> p.id.Null?) && (r[2].None? <==> p.title.Null?)
      && (r[3].None? <==> p.stats.value.views.Null?) && (r[4].None? <==> p.stats.value.favorites.Null?)
      && (r[5].None? <==> p.secret.Null?) && (r[6].None? <==> p.server.Null?)
  {
  }

  /**
   * The `for photo in ...` loop: `rows` gains one row per photo, in order, up to the first
   * incomplete photo; `finished` says whether the loop got through the page.
   */
  method WritePageRows(rows: seq<Row>, date: string, photos: seq<Photo>) returns (out: seq<Row>, finished: bool)
    ensures out == rows + Rows(date, photos[..CompletePrefix(photos)])
    ensures finished <==> CompletePrefix(photos) == |photos|
  {
    out := rows;
    CompletePrefixIsFirstIncomplete(photos);
    for i := 0 to |photos|
      invariant out == rows + Rows(date, photos[..i])
      invariant forall j :: 0 <= j < i ==> Complete(photos[j])
    {
      if !Complete(photos[i]) {
        // KeyError or TypeError: the rest of the page is not written
        return out, false;
      }
      assert Rows(date, photos[..i + 1]) == Rows(date, photos[..i]) + [DriverRow(date, photos[i])];
      out := out + [DriverRow(date, photos[i])];
    }
    assert photos[..|photos|] == photos;
    return out, true;
  }

  // ---------------------------------------------------------------------------
  // The page loop of one date (lines 187-205)

  /** A page call's result has `photos` and `photos.photo`; any other result ends the loop (break or exception). */
  predicate Usable(r: RetryResult) {
    r.Responded? && r.value.Dict? && r.value.photos.Some? && r.value.photos.value.photo.Some?
  }

  function PagePhotos(r: RetryResult): seq<Photo>
    requires Usable(r)
  {
    r.value.photos.value.photo.value
  }

  /** One call made for a date: the page asked for and what `make_api_call_with_retry` gave. */
  datatype PageFetch = PageFetch(page: int, result: RetryResult)

  /** The photos of a fetched page that get a row. */
  function Written(f: PageFetch): seq<Photo> {
    if Usable(f.result) then PagePhotos(f.result)[..CompletePrefix(PagePhotos(f.result))] else []
  }

  /** The page loop goes on after this page: it was usable and every photo on it was written. */
  predicate Continues(f: PageFetch) {
    Usable(f.result) && CompletePrefix(PagePhotos(f.result)) == |PagePhotos(f.result)|
  }

  /** The rows the fetches wrote, page after page. */
  function FetchRows(date: string, fs: seq<PageFetch>): seq<Row> {
    if fs == [] then [] else Rows(date, Written(fs[0])) + FetchRows(date, fs[1..])
  }

  /** What one date has done so far: the calls made and the attempts they used. */
  datatype DateTrace = DateTrace(fetches: seq<PageFetch>, used: nat)

  /** What one `make_api_call_with_retry` for a page does, given the page and the attempt index it starts at. */
  type PageRetry = (int, nat) -> RetryTrace

  /** `make_api_call_with_retry(flickr, "stats.getPopularPhotos", date=date, per_page=100, page=page)`. */
  function RetryCallerOf(remote: Remote, cfg: RetryConfig, date: string): PageRetry {
    (page: int, cursor: nat) => RetrySpec(remote, cfg, Request(date, PageSize, page), cursor)
  }

  /** The `while page_number <= total_pages_for_date` loop from `page` on. */
  function PagesLoop(call: PageRetry, page: int, lastPage: int, start: nat, acc: DateTrace): (r: DateTrace)
    ensures |acc.fetches| <= |r.fetches|
    decreases lastPage - page + 1
  {
    if page > lastPage then acc
    else
      var c := call(page, start + acc.used);
      var f := PageFetch(page, c.result);
      var next := DateTrace(acc.fetches + [f], acc.used + c.used);
      if Continues(f) then PagesLoop(call, page + 1, lastPage, start, next) else next
  }

  /** The first call's result lets the date go on: lines 171-176 neither skip nor raise. */
  predicate Opens(r: RetryResult) {
    r.Responded? && r.value.Dict? && r.value.photos.Some?
    && r.value.photos.value.total.Some? && r.value.photos.value.pages.Some?
  }

  /** A date was skipped before the file was opened, or processed with these rows and calls. */
  datatype DateOutcome =
    | Skipped(used: nat)
    | Processed(rows: seq<Row>, fetches: seq<PageFetch>, used: nat)

  /** One iteration of `for todaydate in datestouse`, started at attempt index `start`. */
  function DateSpec(remote: Remote, cfg: RetryConfig, date: string, start: nat): DateOutcome {
    var c := RetrySpec(remote, cfg, Request(date, PageSize, 1), start);
    if !Opens(c.result) then Skipped(c.used)
    else
      var t := PagesLoop(RetryCallerOf(remote, cfg, date), 1, c.result.value.photos.value.pages.value, start,
                         DateTrace([PageFetch(1, c.result)], c.used));
      Processed(FetchRows(date, t.fetches[1..]), t.fetches, t.used)
  }

  /** The file and the header flag after a date with this outcome. */
  function ApplyDate(file: CsvFile, headerDone: bool, o: DateOutcome): (CsvFile, bool) {
    if o.Skipped? then (file, headerDone)
    else (Present(RowsOf(file) + (if headerDone then [] else [HeaderRow()]) + o.rows), true)
  }

  /**
   * The page loop of lines 187-205, appending to the open file's `rows`: it asks for
   * pages 1, 2, ... and writes their rows, until the last page or the first page that
   * fails, raises or holds an incomplete photo.
   */
  method WritePages(remote: Remote, cfg: RetryConfig, date: string, totalPages: int, start: nat,
                    rows: seq<Row>, fetches0: seq<PageFetch>, used0: nat)
    returns (rows': seq<Row>, used: nat, ghost t: DateTrace)
    ensures t == PagesLoop(RetryCallerOf(remote, cfg, date), 1, totalPages, start, DateTrace(fetches0, used0))
    ensures |fetches0| <= |t.fetches| && rows' == rows + FetchRows(date, t.fetches[|fetches0|..])
    ensures used == t.used
    ensures var t := PagesLoop(RetryCallerOf(remote, cfg, date), 1, totalPages, start, DateTrace(fetches0, used0));
      && |fetches0| <= |t.fetches|
      && rows' == rows + FetchRows(date, t.fetches[|fetches0|..])
      && used == t.used
  {
    ghost var call := RetryCallerOf(remote, cfg, date);
    ghost var fetched: seq<PageFetch> := [];
    rows' := rows;
    used := used0;
    t := PagesLoop(call, 1, totalPages, start, DateTrace(fetches0, used));
    var pageNumber := 1;
    assert fetches0 + fetched == fetches0;
    while pageNumber <= totalPages
      invariant rows' == rows + FetchRows(date, fetched)
      invariant t == PagesLoop(call, pageNumber, totalPages, start, DateTrace(fetches0 + fetched, used))
      decreases totalPages - pageNumber
    {
      ghost var acc := DateTrace(fetches0 + fetched, used);
      ghost var f;
      var k, goesOn, pageRows;
      f, k, goesOn, pageRows := WritePage(remote, cfg, date, pageNumber, start + used);
      PagesLoopStep(call, pageNumber, totalPages, start, acc, f, k);
      ghost var next := DateTrace(acc.fetches + [f], acc.used + k);
      FetchRowsAppend(date, fetched, f);
      AppendAssoc(rows, FetchRows(date, fetched), pageRows);
      assert acc.fetches + [f] == fetches0 + (fetched + [f]);
      rows' := rows' + pageRows;
      used := used + k;
      fetched := fetched + [f];
      assert next == DateTrace(fetches0 + fetched, used);
      if !goesOn {
        assert t == next;
        break;
      }
      pageNumber := pageNumber + 1;
    }
    assert t == DateTrace(fetches0 + fetched, used);
    assert t.fetches[|fetches0|..] == fetched;
  }

  /**
   * One iteration of the page loop: the call for `page`, made at attempt index `cursor`,
   * and the rows it writes; the loop goes on only after a usable page all of whose
   * photos were written.
   */
  method WritePage(remote: Remote, cfg: RetryConfig, date: string, page: int, cursor: nat)
    returns (ghost f: PageFetch, used: nat, goesOn: bool, pageRows: seq<Row>)
    ensures var c := RetryCallerOf(remote, cfg, date)(page, cursor); f == PageFetch(page, c.result) && used == c.used
    ensures goesOn == Continues(f)
    ensures pageRows == Rows(date, Written(f))
    ensures var c := RetryCallerOf(remote, cfg, date)(page, cursor);
      && used == c.used
      && goesOn == Continues(PageFetch(page, c.result))
      && pageRows == Rows(date, Written(PageFetch(page, c.result)))
  {
    var response, k, _ := MakeApiCallWithRetry(remote, cfg, Request(date, PageSize, page), cursor);
    f, used := PageFetch(page, response), k;
    if !Usable(response) {
      // a failed call (break), or one that raised or lacks photos.photo (the exception ends the date)
      return f, used, false, [];
    }
    var finished;
    pageRows, finished := WritePageRows([], date, PagePhotos(response));
    // an incomplete photo raised KeyError or TypeError when !finished
    goesOn := finished;
  }

  /** One iteration of the page loop, unfolded: the call for `page` gave `f` after `k` attempts. */
  lemma PagesLoopStep(call: PageRetry, page: int, lastPage: int, start: nat, acc: DateTrace,
                      f: PageFetch, k: nat)
    requires page <= lastPage
    requires var c := call(page, start + acc.used);
      f == PageFetch(page, c.result) && k == c.used
    ensures var next := DateTrace(acc.fetches + [f], acc.used + k);
      PagesLoop(call, page, lastPage, start, acc)
        == if Continues(f) then PagesLoop(call, page + 1, lastPage, start, next) else next
  {
  }

  /** The rows of one more fetch come after those of the fetches before it. */
  lemma {:induction false} FetchRowsAppend(date: string, fs: seq<PageFetch>, f: PageFetch)
    ensures FetchRows(date, fs + [f]) == FetchRows(date, fs) + Rows(date, Written(f))
    decreases |fs|
  {
    var last := Rows(date, Written(f));
    if fs == [] {
      assert [f][1..] == [];
      assert FetchRows(date, [f]) == last + FetchRows(date, []);
      assert fs + [f] == [f];
    } else {
      var w := Rows(date, Written(fs[0]));
      FetchRowsAppend(date, fs[1..], f);
      assert (fs + [f])[1..] == fs[1..] + [f];
      assert FetchRows(date, fs + [f]) == w + (FetchRows(date, fs[1..]) + last);
      AppendAssoc(w, FetchRows(date, fs[1..]), last);
    }
  }

  /** The body of the per-date loop: the file is opened for appending once the first call succeeds. */
  method ProcessDate(remote: Remote, cfg: RetryConfig, date: string, start: nat, file: CsvFile, headerDone: bool)
    returns (file': CsvFile, headerDone': bool, used: nat, ghost outcome: DateOutcome)
    ensures outcome == DateSpec(remote, cfg, date, start)
    ensures used == outcome.used
    ensures (file', headerDone') == ApplyDate(file, headerDone, outcome)
    ensures var o := DateSpec(remote, cfg, date, start);
      used == o.used && (file', headerDone') == ApplyDate(file, headerDone, o)
  {
    var initial, n, _ := MakeApiCallWithRetry(remote, cfg, Request(date, PageSize, 1), start);
    if !Opens(initial) {
      // the call failed, raised, or the response lacks photos.total or photos.pages
      return file, headerDone, n, Skipped(n);
    }
    var totalPages := initial.value.photos.value.pages.value;
    // open(filepath, mode='a') creates the file if it does not exist
    var rows := RowsOf(file);
    headerDone' := headerDone;
    if !headerDone' {
      rows := rows + [HeaderRow()];
      headerDone' := true;
    }
    ghost var t;
    rows, used, t := WritePages(remote, cfg, date, totalPages, start, rows, [PageFetch(1, initial)], n);
    file' := Present(rows);
    outcome := Processed(FetchRows(date, t.fetches[1..]), t.fetches, t.used);
    assert rows == RowsOf(file) + (if headerDone then [] else [HeaderRow()]) + outcome.rows;
  }

  lemma FetchRowsDrop(date: string, fs: seq<PageFetch>, n: nat)
    requires n < |fs|
    ensures FetchRows(date, fs[n..]) == Rows(date, Written(fs[n])) + FetchRows(date, fs[n + 1..])
  {
    assert fs[n..][1..] == fs[n + 1..];
  }

  /**
   * The calls of the page loop from `page` on: the earlier calls are kept and at most
   * one new call is made per page up to `lastPage`.
   */
  lemma {:induction false} PagesLoopFetches(call: PageRetry, page: int, lastPage: int, start: nat, acc: DateTrace)
    ensures var t := PagesLoop(call, page, lastPage, start, acc);
      |acc.fetches| <= |t.fetches| <= |acc.fetches| + Max(0, lastPage - page + 1)
    ensures var t := PagesLoop(call, page, lastPage, start, acc);
      t.fetches[..|acc.fetches|] == acc.fetches && acc.used <= t.used
    decreases lastPage - page + 1
  {
    var n := |acc.fetches|;
    if page <= lastPage {
      var c := call(page, start + acc.used);
      var f := PageFetch(page, c.result);
      var next := DateTrace(acc.fetches + [f], acc.used + c.used);
      PagesLoopStep(call, page, lastPage, start, acc, f, c.used);
      if Continues(f) {
        PagesLoopFetches(call, page + 1, lastPage, start, next);
        var t := PagesLoop(call, page + 1, lastPage, start, next);
        assert PagesLoop(call, page, lastPage, start, acc) == t;
        assert t.fetches[..n] == next.fetches[..n + 1][..n];
      } else {
        assert PagesLoop(call, page, lastPage, start, acc) == next;
      }
    }
  }

  /**
   * The new calls of the page loop ask for consecutive pages from `page` on, and every
   * one but the last went on.
   */
  lemma PagesLoopPages(call: PageRetry, page: int, lastPage: int, start: nat, acc: DateTrace)
    ensures var t := PagesLoop(call, page, lastPage, start, acc);
      forall i :: |acc.fetches| <= i < |t.fetches| ==> t.fetches[i].page == page + (i - |acc.fetches|)
    ensures var t := PagesLoop(call, page, lastPage, start, acc);
      forall i :: |acc.fetches| <= i < |t.fetches| - 1 ==> Continues(t.fetches[i])
  {
    var t := PagesLoop(call, page, lastPage, start, acc);
    forall i | |acc.fetches| <= i < |t.fetches|
      ensures t.fetches[i].page == page + (i - |acc.fetches|)
      ensures i < |t.fetches| - 1 ==> Continues(t.fetches[i])
    {
      PagesLoopPageAt(call, page, lastPage, start, acc, i);
      PagesLoopGoesOnAt(call, page, lastPage, start, acc, i);
    }
  }

  /** The page the i-th call of the page loop asked for, one of its new calls. */
  lemma {:induction false} PagesLoopPageAt(call: PageRetry, page: int, lastPage: int, start: nat, acc: DateTrace, i: nat)
    requires |acc.fetches| <= i < |PagesLoop(call, page, lastPage, start, acc).fetches|
    ensures var t := PagesLoop(call, page, lastPage, start, acc);
      t.fetches[i].page == page + (i - |acc.fetches|)
    decreases lastPage - page + 1
  {
    var n := |acc.fetches|;
    if page > lastPage {
      assert false;
    } else {
      var c := call(page, start + acc.used);
      var f := PageFetch(page, c.result);
      var next := DateTrace(acc.fetches + [f], acc.used + c.used);
      PagesLoopStep(call, page, lastPage, start, acc, f, c.used);
      if Continues(f) {
        PagesLoopFetches(call, page + 1, lastPage, start, next);
        var t := PagesLoop(call, page + 1, lastPage, start, next);
        assert PagesLoop(call, page, lastPage, start, acc) == t;
        if i == n {
          assert t.fetches[..n + 1][n] == next.fetches[n];
        } else {
          PagesLoopPageAt(call, page + 1, lastPage, start, next, i);
        }
      } else {
        assert PagesLoop(call, page, lastPage, start, acc) == next;
      }
    }
  }

  /** The i-th call of the page loop went on, unless it was the last. */
  lemma {:induction false} PagesLoopGoesOnAt(call: PageRetry, page: int, lastPage: int, start: nat, acc: DateTrace, i: nat)
    requires |acc.fetches| <= i < |PagesLoop(call, page, lastPage, start, acc).fetches|
    ensures var t := PagesLoop(call, page, lastPage, start, acc);
      i < |t.fetches| - 1 ==> Continues(t.fetches[i])
    decreases lastPage - page + 1
  {
    var n := |acc.fetches|;
    if page > lastPage {
      assert false;
    } else {
      var c := call(page, start + acc.used);
      var f := PageFetch(page, c.result);
      var next := DateTrace(acc.fetches + [f], acc.used + c.used);
      PagesLoopStep(call, page, lastPage, start, acc, f, c.used);
      if Continues(f) {
        PagesLoopFetches(call, page + 1, lastPage, start, next);
        var t := PagesLoop(call, page + 1, lastPage, start, next);
        assert PagesLoop(call, page, lastPage, start, acc) == t;
        if i == n {
          assert t.fetches[..n + 1][n] == next.fetches[n];
        } else {
          PagesLoopGoesOnAt(call, page + 1, lastPage, start, next, i);
        }
      } else {
        assert PagesLoop(call, page, lastPage, start, acc) == next;
      }
    }
  }

  /** A page loop that made fewer calls than there are pages left stopped on a page that did not go on. */
  lemma {:induction false} PagesLoopStopsEarly(call: PageRetry, page: int, lastPage: int, start: nat, acc: DateTrace)
    ensures var t := PagesLoop(call, page, lastPage, start, acc);
      |t.fetches| < |acc.fetches| + Max(0, lastPage - page + 1) ==>
        |t.fetches| > |acc.fetches| && !Continues(t.fetches[|t.fetches| - 1])
    decreases lastPage - page + 1
  {
    var n := |acc.fetches|;
    if page <= lastPage {
      var c := call(page, start + acc.used);
      var f := PageFetch(page, c.result);
      var next := DateTrace(acc.fetches + [f], acc.used + c.used);
      PagesLoopStep(call, page, lastPage, start, acc, f, c.used);
      if Continues(f) {
        PagesLoopStopsEarly(call, page + 1, lastPage, start, next);
        PagesLoopFetches(call, page + 1, lastPage, start, next);
        var t := PagesLoop(call, page + 1, lastPage, start, next);
        assert PagesLoop(call, page, lastPage, start, acc) == t;
      } else {
        assert PagesLoop(call, page, lastPage, start, acc) == next;
      }
    }
  }

  /** A row with one field per column and the date first: the row of line 203 for a complete photo. */
  ghost predicate FullRow(date: string, r: Row) {
    |r| == |CsvColumns| && r[0] == Some(date) && exists p :: Complete(p) && r == DriverRow(date, p)
  }

  lemma {:induction false} FetchRowsComplete(date: string, fs: seq<PageFetch>)
    ensures forall r :: r in FetchRows(date, fs) ==>
      FullRow(date, r)
    decreases |fs|
  {
    if fs != [] {
      FetchRowsComplete(date, fs[1..]);
      var w := Written(fs[0]);
      forall r | r in Rows(date, w)
        ensures FullRow(date, r)
      {
        var i :| 0 <= i < |w| && Rows(date, w)[i] == r;
        if Usable(fs[0].result) {
          CompletePrefixIsFirstIncomplete(PagePhotos(fs[0].result));
        }
        assert Complete(w[i]);
        DriverRowIsPhotoRow(date, w[i]);
      }
    }
  }

  /**
   * One date: it is skipped, writing nothing, exactly when its first call gives no
   * response with `photos.total` and `photos.pages`. Otherwise the first call is
   * followed by calls for pages 1, 2, ... (so page 1 is asked for twice once there is a
   * page), at most one per page; the photos of the first response are not written; the
   * rows come from the later calls in order, each a full row of the date; and the loop
   * stops early only on a page that failed, raised or held an incomplete photo.
   */
  lemma DateSpecShape(remote: Remote, cfg: RetryConfig, date: string, start: nat)
    ensures var c := RetrySpec(remote, cfg, Request(date, PageSize, 1), start);
      var o := DateSpec(remote, cfg, date, start);
      && (o.Skipped? <==> !Opens(c.result))
      && (o.Skipped? ==> o.used == c.used)
      && (o.Processed? ==>
            var pages := c.result.value.photos.value.pages.value;
            var fs := o.fetches;
            && 1 <= |fs| <= 1 + Max(0, pages)
            && fs[0] == PageFetch(1, c.result)
            && c.used <= o.used
            && (forall i :: 1 <= i < |fs| ==> fs[i].page == i)
            && (pages >= 1 ==> |fs| >= 2 && fs[1].page == 1)
            && (forall i :: 1 <= i < |fs| - 1 ==> Continues(fs[i]))
            && (|fs| < 1 + Max(0, pages) ==> |fs| > 1 && !Continues(fs[|fs| - 1]))
            && o.rows == FetchRows(date, fs[1..])
            && (forall r :: r in o.rows ==> FullRow(date, r)))
  {
    var c := RetrySpec(remote, cfg, Request(date, PageSize, 1), start);
    if Opens(c.result) {
      var pages := c.result.value.photos.value.pages.value;
      var acc := DateTrace([PageFetch(1, c.result)], c.used);
      var call := RetryCallerOf(remote, cfg, date);
      PagesLoopFetches(call, 1, pages, start, acc);
      PagesLoopPages(call, 1, pages, start, acc);
      PagesLoopStopsEarly(call, 1, pages, start, acc);
      var t := PagesLoop(call, 1, pages, start, acc);
      assert t.fetches[..1][0] == t.fetches[0];
      FetchRowsComplete(date, t.fetches[1..]);
    }
  }

  // ---------------------------------------------------------------------------
  // The run over all dates (lines 157-211)

  /** What one date does, given the attempt index it starts at. */
  type DateRun = (string, nat) -> DateOutcome

  /** `DateSpec` against this remote service and retry settings. */
  function DateRunOf(remote: Remote, cfg: RetryConfig): DateRun {
    (date: string, cursor: nat) => DateSpec(remote, cfg, date, cursor)
  }

  /** The file, the flag, the attempts used and each date's outcome so far. */
  datatype RunTrace = RunTrace(file: CsvFile, headerDone: bool, used: nat, outcomes: seq<DateOutcome>)

  /** `for todaydate in datestouse` from the i-th date on. */
  function RunFrom(run: DateRun, dates: seq<string>, i: nat, start: nat, acc: RunTrace): RunTrace
    decreases |dates| - i
  {
    if i >= |dates| then acc
    else
      var o := run(dates[i], start + acc.used);
      var (file, headerDone) := ApplyDate(acc.file, acc.headerDone, o);
      RunFrom(run, dates, i + 1, start, RunTrace(file, headerDone, acc.used + o.used, acc.outcomes + [o]))
  }

  /** Lines 157-211: `file_exists_for_header = os.path.exists(filepath)`, then every date in turn. */
  method ProcessDates(remote: Remote, cfg: RetryConfig, dates: seq<string>, start: nat, file0: CsvFile)
    returns (file: CsvFile, used: nat, ghost outcomes: seq<DateOutcome>)
    ensures var t := RunFrom(DateRunOf(remote, cfg), dates, 0, start, RunTrace(file0, file0.Present?, 0, []));
      file == t.file && used == t.used
    ensures outcomes == RunFrom(DateRunOf(remote, cfg), dates, 0, start, RunTrace(file0, file0.Present?, 0, [])).outcomes
  {
    ghost var run := DateRunOf(remote, cfg);
    file := file0;
    var fileExistsForHeader := file0.Present?;
    used := 0;
    outcomes := [];
    ghost var whole := RunFrom(run, dates, 0, start, RunTrace(file, fileExistsForHeader, used, outcomes));
    for i := 0 to |dates|
      invariant whole == RunFrom(run, dates, i, start, RunTrace(file, fileExistsForHeader, used, outcomes))
    {
      var k;
      ghost var o;
      ghost var acc := RunTrace(file, fileExistsForHeader, used, outcomes);
      file, fileExistsForHeader, k, o := ProcessDate(remote, cfg, dates[i], start + used, file, fileExistsForHeader);
      assert o == run(dates[i], start + used);
      used := used + k;
      outcomes := outcomes + [o];
      RunFromStep(run, dates, i, start, acc, o, RunTrace(file, fileExistsForHeader, used, outcomes));
    }
  }

  /** One iteration of the date loop, unfolded: the i-th date gave `o`, and `acc` became `next`. */
  lemma RunFromStep(run: DateRun, dates: seq<string>, i: nat, start: nat, acc: RunTrace, o: DateOutcome, next: RunTrace)
    requires i < |dates| && o == run(dates[i], start + acc.used)
    requires (next.file, next.headerDone) == ApplyDate(acc.file, acc.headerDone, o)
    requires next.used == acc.used + o.used && next.outcomes == acc.outcomes + [o]
    ensures RunFrom(run, dates, i, start, acc) == RunFrom(run, dates, i + 1, start, next)
  {
  }

  /** Some date got past its first call. */
  predicate HasProcessed(os: seq<DateOutcome>) {
    os != [] && (os[0].Processed? || HasProcessed(os[1..]))
  }

  /** The rows a date wrote, none if it was skipped. */
  function OutcomeRowsOf(o: DateOutcome): seq<Row> {
    if o.Processed? then o.rows else []
  }

  /** The rows the processed dates wrote, date after date. */
  function OutcomeRows(os: seq<DateOutcome>): seq<Row> {
    if os == [] then [] else OutcomeRowsOf(os[0]) + OutcomeRows(os[1..])
  }

  /** The attempts the dates used, all together. */
  function UsedSum(os: seq<DateOutcome>): nat {
    if os == [] then 0 else os[0].used + UsedSum(os[1..])
  }

  /**
   * Each date run in turn, the first from attempt index `cursor`, every later one from
   * the index the dates before it left.
   */
  function DatesSpec(run: DateRun, dates: seq<string>, cursor: nat): (os: seq<DateOutcome>)
    ensures |os| == |dates|
  {
    if dates == [] then []
    else
      var o := run(dates[0], cursor);
      [o] + DatesSpec(run, dates[1..], cursor + o.used)
  }

  /**
   * The output file after these outcomes, starting from `file0`: unchanged if no date
   * was processed; otherwise what it held, the header row if it did not exist, then the
   * rows of the processed dates.
   */
  function FileAfter(file0: CsvFile, os: seq<DateOutcome>): CsvFile {
    if HasProcessed(os) then Present(RowsOf(file0) + (if file0.Present? then [] else [HeaderRow()]) + OutcomeRows(os))
    else file0
  }

  lemma HasProcessedCons(o: DateOutcome, os: seq<DateOutcome>)
    ensures HasProcessed([o] + os) <==> o.Processed? || HasProcessed(os)
  {
    assert ([o] + os)[1..] == os;
  }

  /** One more date, as `FileAfter` sees it: the file and flag `ApplyDate` leaves are where the rest goes on from. */
  lemma FileAfterCons(file: CsvFile, headerDone: bool, o: DateOutcome, rest: seq<DateOutcome>)
    requires headerDone == file.Present?
    ensures var (file', headerDone') := ApplyDate(file, headerDone, o);
      headerDone' == file'.Present? && FileAfter(file, [o] + rest) == FileAfter(file', rest)
  {
    var os := [o] + rest;
    HasProcessedCons(o, rest);
    assert os[1..] == rest;
    assert OutcomeRows(os) == OutcomeRowsOf(o) + OutcomeRows(rest);
    if o.Processed? {
      var h: seq<Row> := if file.Present? then [] else [HeaderRow()];
      var file' := Present(RowsOf(file) + h + o.rows);
      if HasProcessed(rest) {
        assert FileAfter(file', rest) == Present(RowsOf(file') + [] + OutcomeRows(rest));
      } else {
        NoProcessedNoRows(rest);
      }
      AppendAssoc(RowsOf(file) + h, o.rows, OutcomeRows(rest));
    }
  }

  lemma {:induction false} NoProcessedNoRows(os: seq<DateOutcome>)
    requires !HasProcessed(os)
    ensures OutcomeRows(os) == []
    decreases |os|
  {
    if os != [] {
      NoProcessedNoRows(os[1..]);
    }
  }

  /** The outcomes and attempts of the run from the i-th date on are those of `DatesSpec`. */
  lemma {:induction false} RunFromOutcomes(run: DateRun, dates: seq<string>, i: nat, start: nat, acc: RunTrace)
    requires i <= |dates|
    ensures var t := RunFrom(run, dates, i, start, acc);
      var os := DatesSpec(run, dates[i..], start + acc.used);
      t.outcomes == acc.outcomes + os && t.used == acc.used + UsedSum(os)
    decreases |dates| - i
  {
    if i < |dates| {
      var o := run(dates[i], start + acc.used);
      var (file, headerDone) := ApplyDate(acc.file, acc.headerDone, o);
      var next := RunTrace(file, headerDone, acc.used + o.used, acc.outcomes + [o]);
      RunFromOutcomes(run, dates, i + 1, start, next);
      assert dates[i..][1..] == dates[i + 1..];
      var rest := DatesSpec(run, dates[i + 1..], start + acc.used + o.used);
      assert DatesSpec(run, dates[i..], start + acc.used) == [o] + rest;
      AppendAssoc(acc.outcomes, [o], rest);
    } else {
      assert dates[i..] == [];
    }
  }

  /** The file of the run from the i-th date on, as `FileAfter` of the dates' outcomes. */
  lemma {:induction false} RunFromFile(run: DateRun, dates: seq<string>, i: nat, start: nat, acc: RunTrace)
    requires i <= |dates|
    requires acc.headerDone == acc.file.Present?
    ensures var t := RunFrom(run, dates, i, start, acc);
      var os := DatesSpec(run, dates[i..], start + acc.used);
      t.headerDone == t.file.Present? && t.file == FileAfter(acc.file, os)
    decreases |dates| - i
  {
    if i < |dates| {
      var o := run(dates[i], start + acc.used);
      var (file, headerDone) := ApplyDate(acc.file, acc.headerDone, o);
      var next := RunTrace(file, headerDone, acc.used + o.used, acc.outcomes + [o]);
      FileAfterCons(acc.file, acc.headerDone, o, DatesSpec(run, dates[i + 1..], start + acc.used + o.used));
      RunFromFile(run, dates, i + 1, start, next);
      assert dates[i..][1..] == dates[i + 1..];
      assert RunFrom(run, dates, i, start, acc) == RunFrom(run, dates, i + 1, start, next);
    } else {
      assert dates[i..] == [];
    }
  }

  /**
   * The whole run over `dates`: each date is run in turn, from the attempt index left
   * by the dates before it. The file is untouched unless some date was processed; then
   * it holds what it held, the header row if it did not exist, and the rows of the
   * processed dates in date order; the header flag ends up saying whether the file exists.
   */
  lemma RunShape(run: DateRun, dates: seq<string>, start: nat, file0: CsvFile)
    ensures var t := RunFrom(run, dates, 0, start, RunTrace(file0, file0.Present?, 0, []));
      && t.outcomes == DatesSpec(run, dates, start)
      && |t.outcomes| == |dates|
      && t.used == UsedSum(t.outcomes)
      && t.headerDone == t.file.Present?
      && t.file == FileAfter(file0, t.outcomes)
  {
    assert dates[0..] == dates;
    RunFromOutcomes(run, dates, 0, start, RunTrace(file0, file0.Present?, 0, []));
    RunFromFile(run, dates, 0, start, RunTrace(file0, file0.Present?, 0, []));
  }

  /** A date run each of whose outcomes writes only full rows of its date. */
  ghost predicate WritesFullRows(run: DateRun) {
    forall d: string, c: nat, r: Row :: r in OutcomeRowsOf(run(d, c)) ==> FullRow(d, r)
  }

  /** Every row the processed dates wrote is a full row of one of the dates. */
  lemma {:induction false} RunRowsAreFull(run: DateRun, dates: seq<string>, cursor: nat)
    requires WritesFullRows(run)
    ensures forall r :: r in OutcomeRows(DatesSpec(run, dates, cursor)) ==>
      exists j :: 0 <= j < |dates| && FullRow(dates[j], r)
    decreases |dates|
  {
    if dates != [] {
      var o := run(dates[0], cursor);
      var rest := DatesSpec(run, dates[1..], cursor + o.used);
      var os := [o] + rest;
      assert os[1..] == rest;
      assert OutcomeRows(os) == OutcomeRowsOf(o) + OutcomeRows(rest);
      RunRowsAreFull(run, dates[1..], cursor + o.used);
      forall r | r in OutcomeRows(os)
        ensures exists j :: 0 <= j < |dates| && FullRow(dates[j], r)
      {
        if r in OutcomeRows(rest) {
          var j :| 0 <= j < |dates[1..]| && FullRow(dates[1..][j], r);
          assert FullRow(dates[j + 1], r);
        } else {
          assert r in OutcomeRowsOf(o);
          assert FullRow(dates[0], r);
        }
      }
    }
  }

  /** Every row the script writes is a full row of one of the dates. */
  lemma OutcomeRowsAreFull(remote: Remote, cfg: RetryConfig, dates: seq<string>, cursor: nat)
    ensures forall r :: r in OutcomeRows(DatesSpec(DateRunOf(remote, cfg), dates, cursor)) ==>
      exists j :: 0 <= j < |dates| && FullRow(dates[j], r)
  {
    var run := DateRunOf(remote, cfg);
    forall d: string, c: nat, r: Row | r in OutcomeRowsOf(run(d, c))
      ensures FullRow(d, r)
    {
      DateRowsAreFull(remote, cfg, d, c);
    }
    RunRowsAreFull(run, dates, cursor);
  }

  /** Every row one date wrote is a full row of that date. */
  lemma DateRowsAreFull(remote: Remote, cfg: RetryConfig, date: string, cursor: nat)
    ensures forall r :: r in OutcomeRowsOf(DateSpec(remote, cfg, date, cursor)) ==> FullRow(date, r)
  {
    DateSpecShape(remote, cfg, date, cursor);
  }
}
