/**
 * api_handler.py: `_make_api_call`, one remote call retried with capped exponential
 * backoff, and `fetch_popular_photos_for_date`, which walks the result pages of one
 * date and concatenates their photo lists.
 *
 * Both are methods with the loops of the source; each is proved equal to a recursive
 * specification (`CallSpec`, `FetchSpec`) and the properties the module promises are
 * lemmas about those specifications. `time.sleep` appends its argument to a ghost log.
 */
module ApiHandler {
  import opened Wrappers
  import opened FlickrApi

  /** `response and isinstance(response, dict) and response.get("stat") == "ok"`. */
  predicate IsOkResponse(v: Value) {
    v.Dict? && v.stat == Some("ok")
  }

  /** A failure the loop retries: a rate-limit FlickrError, or any exception that is not a FlickrError. */
  predicate Retryable(o: Outcome) {
    (o.FlickrError? && IsRateLimit(o.code)) || o.OtherException?
  }

  /** Result of one `_make_api_call`: the response or None, the attempts made, the sleeps taken. */
  datatype CallTrace = CallTrace(response: Option<Value>, used: nat, sleeps: seq<nat>)

  /** The rest of the retry loop from iteration `attempt`, with `retry_delay == delay`. */
  function CallFrom(remote: Remote, cfg: RetryConfig, req: Request, start: nat, attempt: nat, delay: nat): CallTrace
    decreases cfg.maxRetries - attempt
  {
    if attempt >= cfg.maxRetries then
      CallTrace(None, attempt, [])
    else
      var o := remote(req, start + attempt);
      if o.Returned? then
        CallTrace(if IsOkResponse(o.value) then Some(o.value) else None, attempt + 1, [])
      else if Retryable(o) && attempt < cfg.maxRetries - 1 then
        var rest := CallFrom(remote, cfg, req, start, attempt + 1, Min(delay * 2, cfg.maxDelay));
        CallTrace(rest.response, rest.used, [delay] + rest.sleeps)
      else
        CallTrace(None, attempt + 1, [])
  }

  /** `_make_api_call(flickr, "stats.getPopularPhotos", **req)` made at attempt index `start` of the run. */
  function CallSpec(remote: Remote, cfg: RetryConfig, req: Request, start: nat): CallTrace {
    CallFrom(remote, cfg, req, start, 0, cfg.initialDelay)
  }

  function WithSleeps(s: seq<nat>, t: CallTrace): CallTrace {
    CallTrace(t.response, t.used, s + t.sleeps)
  }

  /** One iteration of the retry loop, unfolded: attempt `attempt` gave `o`. */
  lemma CallFromStep(remote: Remote, cfg: RetryConfig, req: Request, start: nat, attempt: nat, delay: nat, o: Outcome)
    requires attempt < cfg.maxRetries && o == remote(req, start + attempt)
    ensures o.Returned? ==>
      CallFrom(remote, cfg, req, start, attempt, delay) == CallTrace(if IsOkResponse(o.value) then Some(o.value) else None, attempt + 1, [])
    ensures !o.Returned? && Retryable(o) && attempt < cfg.maxRetries - 1 ==>
      CallFrom(remote, cfg, req, start, attempt, delay) == WithSleeps([delay], CallFrom(remote, cfg, req, start, attempt + 1, Min(delay * 2, cfg.maxDelay)))
    ensures !o.Returned? && !(Retryable(o) && attempt < cfg.maxRetries - 1) ==>
      CallFrom(remote, cfg, req, start, attempt, delay) == CallTrace(None, attempt + 1, [])
  {
  }

  /** A sleep taken now comes after those taken before it. */
  lemma WithSleepsAppend(s: seq<nat>, delay: nat, t: CallTrace)
    ensures WithSleeps(s, WithSleeps([delay], t)) == WithSleeps(s + [delay], t)
  {
    AppendAssoc(s, [delay], t.sleeps);
  }

  /** `_make_api_call`; attempt i of this call is the oracle's attempt `start + i`. */
  method MakeApiCall(remote: Remote, cfg: RetryConfig, req: Request, start: nat)
    returns (response: Option<Value>, used: nat, ghost sleeps: seq<nat>)
    ensures CallTrace(response, used, sleeps) == CallSpec(remote, cfg, req, start)
    ensures used <= cfg.maxRetries
  {
    ghost var whole := CallSpec(remote, cfg, req, start);
    var retryDelay := cfg.initialDelay;
    sleeps := [];
    for attempt := 0 to cfg.maxRetries
      invariant whole == WithSleeps(sleeps, CallFrom(remote, cfg, req, start, attempt, retryDelay))
    {
      var outcome := remote(req, start + attempt);
      CallFromStep(remote, cfg, req, start, attempt, retryDelay, outcome);
      ghost var later := CallFrom(remote, cfg, req, start, attempt + 1, Min(retryDelay * 2, cfg.maxDelay));
      match outcome {
        case Returned(v) =>
          if IsOkResponse(v) {
            return Some(v), attempt + 1, sleeps;
          }
          // the response format is unexpected
          return None, attempt + 1, sleeps;
        case FlickrError(code) =>
          if IsRateLimit(code) {
            if attempt < cfg.maxRetries - 1 {
              WithSleepsAppend(sleeps, retryDelay, later);
              sleeps := sleeps + [retryDelay];
              retryDelay := Min(retryDelay * 2, cfg.maxDelay);
            } else {
              return None, attempt + 1, sleeps;
            }
          } else {
            return None, attempt + 1, sleeps;
          }
        case OtherException =>
          if attempt < cfg.maxRetries - 1 {
            WithSleepsAppend(sleeps, retryDelay, later);
            sleeps := sleeps + [retryDelay];
            retryDelay := Min(retryDelay * 2, cfg.maxDelay);
          } else {
            return None, attempt + 1, sleeps;
          }
      }
    }
    return None, cfg.maxRetries, sleeps;
  }

  /** The retry loop, from any iteration on: how many attempts, which sleeps, what result. */
  lemma {:induction false} CallFromShape(remote: Remote, cfg: RetryConfig, req: Request, start: nat, attempt: nat, delay: nat)
    requires attempt <= cfg.maxRetries && delay == Delay(cfg, attempt)
    ensures var t := CallFrom(remote, cfg, req, start, attempt, delay);
      && attempt <= t.used <= cfg.maxRetries
      && (t.used == attempt <==> attempt == cfg.maxRetries)
      && |t.sleeps| == (if t.used == attempt then 0 else t.used - attempt - 1)
      && (forall j :: 0 <= j < |t.sleeps| ==> t.sleeps[j] == Delay(cfg, attempt + j))
      && (forall k :: start + attempt <= k < start + t.used - 1 ==> Retryable(remote(req, k)))
      && (t.used == attempt ==> t.response.None?)
      && (t.used > attempt ==>
            var last := remote(req, start + t.used - 1);
            && (t.response.Some? <==> last.Returned? && IsOkResponse(last.value))
            && (t.response.Some? ==> t.response.value == last.value)
            && (Retryable(last) ==> t.used == cfg.maxRetries))
    decreases cfg.maxRetries - attempt
  {
    if attempt < cfg.maxRetries {
      var o := remote(req, start + attempt);
      if !o.Returned? && Retryable(o) && attempt < cfg.maxRetries - 1 {
        var next := Min(delay * 2, cfg.maxDelay);
        CallFromShape(remote, cfg, req, start, attempt + 1, next);
        var rest := CallFrom(remote, cfg, req, start, attempt + 1, next);
        assert CallFrom(remote, cfg, req, start, attempt, delay).sleeps == [delay] + rest.sleeps;
      }
    }
  }

  /**
   * One `_make_api_call`: at most MAX_RETRIES attempts; every attempt but the last was a
   * retried failure and is followed by exactly one sleep, the j-th of them lasting `Delay(cfg, j)`;
   * the call returns the last attempt's response exactly when that is a dict with `stat`
   * "ok"; a retryable failure ends the call only when the attempts are exhausted.
   */
  lemma CallSpecShape(remote: Remote, cfg: RetryConfig, req: Request, start: nat)
    ensures var t := CallSpec(remote, cfg, req, start);
      && t.used <= cfg.maxRetries
      && (t.used == 0 <==> cfg.maxRetries == 0)
      && |t.sleeps| == (if t.used == 0 then 0 else t.used - 1)
      && (forall j :: 0 <= j < |t.sleeps| ==> t.sleeps[j] == Delay(cfg, j))
      && (forall k :: start <= k < start + t.used - 1 ==> Retryable(remote(req, k)))
      && (t.used == 0 ==> t.response.None?)
      && (t.used > 0 ==>
            var last := remote(req, start + t.used - 1);
            && (t.response.Some? <==> last.Returned? && IsOkResponse(last.value))
            && (t.response.Some? ==> t.response.value == last.value)
            && (Retryable(last) ==> t.used == cfg.maxRetries))
  {
    CallFromShape(remote, cfg, req, start, 0, cfg.initialDelay);
    var t := CallSpec(remote, cfg, req, start);
    assert forall j :: 0 <= j < |t.sleeps| ==> t.sleeps[j] == Delay(cfg, 0 + j);
  }

  /** One `_make_api_call` makes at most MAX_RETRIES attempts. */
  lemma CallSpecUsed(remote: Remote, cfg: RetryConfig, req: Request, start: nat)
    ensures CallSpec(remote, cfg, req, start).used <= cfg.maxRetries
  {
    CallSpecShape(remote, cfg, req, start);
  }

  /**
   * A first attempt that is not retryable (a malformed response, a Flickr error other than
   * a rate limit) or that succeeds ends the call at once, without sleeping.
   */
  lemma NotRetryableEndsAtOnce(remote: Remote, cfg: RetryConfig, req: Request, start: nat)
    requires cfg.maxRetries >= 1 && !Retryable(remote(req, start))
    ensures var t := CallSpec(remote, cfg, req, start);
      && t.used == 1 && t.sleeps == []
      && (t.response.Some? <==> remote(req, start).Returned? && IsOkResponse(remote(req, start).value))
  {
    CallSpecShape(remote, cfg, req, start);
  }

  /** With INITIAL_RETRY_DELAY <= MAX_RETRY_DELAY the n-th sleep lasts min(initial * 2^(n-1), max), never less than the one before. */
  lemma SleepsAreCappedDoubling(remote: Remote, cfg: RetryConfig, req: Request, start: nat)
    requires cfg.initialDelay <= cfg.maxDelay
    ensures var s := CallSpec(remote, cfg, req, start).sleeps;
      && (forall j :: 0 <= j < |s| ==> s[j] == Min(cfg.initialDelay * Pow2(j), cfg.maxDelay) && s[j] <= cfg.maxDelay)
      && (forall j :: 0 < j < |s| ==> s[j - 1] <= s[j])
  {
    CallSpecShape(remote, cfg, req, start);
    var s := CallSpec(remote, cfg, req, start).sleeps;
    forall j | 0 <= j < |s|
      ensures s[j] == Min(cfg.initialDelay * Pow2(j), cfg.maxDelay) && s[j] <= cfg.maxDelay
    {
      DelayClosedForm(cfg, j);
    }
    forall j | 0 < j < |s|
      ensures s[j - 1] <= s[j]
    {
      DelayMonotone(cfg, j - 1, j);
    }
  }

  /** With the shipped configuration a call sleeps at most twice: 2 seconds, then 4. */
  lemma DefaultSleeps(remote: Remote, req: Request, start: nat)
    ensures var s := CallSpec(remote, Defaults, req, start).sleeps;
      |s| <= 2 && s == [2, 4][..|s|]
  {
    CallSpecShape(remote, Defaults, req, start);
    DefaultDelays();
    var s := CallSpec(remote, Defaults, req, start).sleeps;
    assert |s| >= 1 ==> s[0] == 2;
    assert |s| >= 2 ==> s[1] == 4;
  }

  // ---------------------------------------------------------------------------
  // fetch_popular_photos_for_date

  /** `response and "photos" in response`. */
  predicate HasPhotos(r: Option<Value>) {
    r.Some? && r.value.Dict? && r.value.photos.Some?
  }

  /** `response and "photos" in response and "photo" in response["photos"]`. */
  predicate HasPhotoList(r: Option<Value>) {
    HasPhotos(r) && r.value.photos.value.photo.Some?
  }

  function PhotosOf(r: Option<Value>): seq<Photo> {
    if HasPhotoList(r) then r.value.photos.value.photo.value else []
  }

  /** One call of the fetch: the page it asked for and the response `_make_api_call` gave. */
  datatype PageCall = PageCall(page: int, response: Option<Value>)

  /** The photo lists of the calls, concatenated in call order. */
  function Concat(calls: seq<PageCall>): seq<Photo> {
    if calls == [] then [] else PhotosOf(calls[0].response) + Concat(calls[1..])
  }

  /** What the fetch has accumulated: `all_photos`, the calls made, attempts used, sleeps taken. */
  datatype LoopTrace = LoopTrace(photos: seq<Photo>, calls: seq<PageCall>, used: nat, sleeps: seq<nat>)

  /** What one `_make_api_call` for a page does, given the page and the attempt index it starts at. */
  type PageCaller = (int, nat) -> CallTrace

  /** `_make_api_call(flickr, "stats.getPopularPhotos", date=date, per_page=100, page=page)`. */
  function CallerOf(remote: Remote, cfg: RetryConfig, date: string): PageCaller {
    (page: int, cursor: nat) => CallSpec(remote, cfg, Request(date, PageSize, page), cursor)
  }

  /**
   * The page loop `for page_num in range(page, last_page + 1)`, its break included, continuing
   * from what has been accumulated in `acc`; the next attempt index is `start + acc.used`.
   */
  function PagesFrom(call: PageCaller, page: int, lastPage: int, start: nat, acc: LoopTrace): LoopTrace
    decreases lastPage - page + 1
  {
    if page > lastPage then acc
    else
      var c := call(page, start + acc.used);
      var next := LoopTrace(acc.photos + PhotosOf(c.response), acc.calls + [PageCall(page, c.response)], acc.used + c.used, acc.sleeps + c.sleeps);
      if HasPhotoList(c.response) then PagesFrom(call, page + 1, lastPage, start, next) else next
  }

  datatype FetchTrace = FetchTrace(photos: Option<seq<Photo>>, calls: seq<PageCall>, used: nat, sleeps: seq<nat>)

  /** `photos.pages`, `photos.total` and `photos.photo` of a response that has `photos`, missing keys read as 0 and []. */
  function Pages(r: Option<Value>): int requires HasPhotos(r) { r.value.photos.value.pages.GetOr(0) }
  function Total(r: Option<Value>): int requires HasPhotos(r) { r.value.photos.value.total.GetOr(0) }
  function FirstPhotos(r: Option<Value>): seq<Photo> requires HasPhotos(r) { r.value.photos.value.photo.GetOr([]) }

  /** `fetch_popular_photos_for_date(flickr, date)` started at attempt index `start` of the run. */
  function FetchSpec(remote: Remote, cfg: RetryConfig, date: string, start: nat): FetchTrace {
    var first := CallSpec(remote, cfg, Request(date, PageSize, 1), start);
    var call1 := [PageCall(1, first.response)];
    if !HasPhotos(first.response) then
      FetchTrace(None, call1, first.used, first.sleeps)
    else if Total(first.response) == 0 then
      FetchTrace(Some([]), call1, first.used, first.sleeps)
    else
      var t := PagesFrom(CallerOf(remote, cfg, date), 2, Pages(first.response), start,
                         LoopTrace(FirstPhotos(first.response), call1, first.used, first.sleeps));
      FetchTrace(Some(t.photos), t.calls, t.used, t.sleeps)
  }

  /** One iteration of the page loop, unfolded: the call for `page` gave `c`. */
  lemma PagesFromStep(call: PageCaller, page: int, lastPage: int, start: nat, acc: LoopTrace, c: CallTrace)
    requires page <= lastPage && c == call(page, start + acc.used)
    ensures var next := LoopTrace(acc.photos + PhotosOf(c.response), acc.calls + [PageCall(page, c.response)], acc.used + c.used, acc.sleeps + c.sleeps);
      PagesFrom(call, page, lastPage, start, acc) == if HasPhotoList(c.response) then PagesFrom(call, page + 1, lastPage, start, next) else next
  {
  }

  /** `fetch_popular_photos_for_date`. */
  method FetchPopularPhotosForDate(remote: Remote, cfg: RetryConfig, date: string, start: nat)
    returns (photos: Option<seq<Photo>>, used: nat, ghost calls: seq<PageCall>, ghost sleeps: seq<nat>)
    ensures FetchTrace(photos, calls, used, sleeps) == FetchSpec(remote, cfg, date, start)
    ensures photos == FetchSpec(remote, cfg, date, start).photos && used == FetchSpec(remote, cfg, date, start).used
  {
    var initial, n, s := MakeApiCall(remote, cfg, Request(date, PageSize, 1), start);
    used, calls, sleeps := n, [PageCall(1, initial)], s;
    if !HasPhotos(initial) {
      // could not retrieve initial photo data
      return None, used, calls, sleeps;
    }
    var env := initial.value.photos.value;
    var totalPages := env.pages.GetOr(0);
    var totalPhotos := env.total.GetOr(0);
    if totalPhotos == 0 {
      return Some([]), used, calls, sleeps;
    }
    var allPhotos := env.photo.GetOr([]);
    assert CallTrace(initial, n, s) == CallSpec(remote, cfg, Request(date, PageSize, 1), start);
    assert allPhotos == FirstPhotos(initial) && totalPages == Pages(initial) && totalPhotos == Total(initial);
    allPhotos, used, calls, sleeps := FetchPages(remote, cfg, date, totalPages, start, allPhotos, used, calls, sleeps);
    return Some(allPhotos), used, calls, sleeps;
  }

  /** The page loop of `fetch_popular_photos_for_date`, pages 2 to `totalPages`. */
  method FetchPages(remote: Remote, cfg: RetryConfig, date: string, totalPages: int, start: nat,
                    photos0: seq<Photo>, used0: nat, ghost calls0: seq<PageCall>, ghost sleeps0: seq<nat>)
    returns (allPhotos: seq<Photo>, used: nat, ghost calls: seq<PageCall>, ghost sleeps: seq<nat>)
    ensures LoopTrace(allPhotos, calls, used, sleeps)
         == PagesFrom(CallerOf(remote, cfg, date), 2, totalPages, start, LoopTrace(photos0, calls0, used0, sleeps0))
    ensures var t := PagesFrom(CallerOf(remote, cfg, date), 2, totalPages, start, LoopTrace(photos0, calls0, used0, sleeps0));
      allPhotos == t.photos && used == t.used
  {
    ghost var call := CallerOf(remote, cfg, date);
    allPhotos, used, calls, sleeps := photos0, used0, calls0, sleeps0;
    ghost var whole := PagesFrom(call, 2, totalPages, start, LoopTrace(allPhotos, calls, used, sleeps));
    var pageNum := 2;
    while pageNum <= totalPages
      invariant whole == PagesFrom(call, pageNum, totalPages, start, LoopTrace(allPhotos, calls, used, sleeps))
      decreases totalPages - pageNum
    {
      var response, k, slept := MakeApiCall(remote, cfg, Request(date, PageSize, pageNum), start + used);
      ghost var c := CallTrace(response, k, slept);
      assert c == call(pageNum, start + used);
      PagesFromStep(call, pageNum, totalPages, start, LoopTrace(allPhotos, calls, used, sleeps), c);
      ghost var next := LoopTrace(allPhotos + PhotosOf(response), calls + [PageCall(pageNum, response)], used + k, sleeps + slept);
      if !HasPhotoList(response) {
        // failed to fetch this page: skip the remaining pages
        assert whole == next;
        assert allPhotos + PhotosOf(response) == allPhotos;
        used, calls, sleeps := used + k, calls + [PageCall(pageNum, response)], sleeps + slept;
        return;
      }
      allPhotos := allPhotos + response.value.photos.value.photo.value;
      used, calls, sleeps := used + k, calls + [PageCall(pageNum, response)], sleeps + slept;
      assert LoopTrace(allPhotos, calls, used, sleeps) == next;
      pageNum := pageNum + 1;
    }
  }

  /** Dropping one more call drops its photos from the front of the concatenation. */
  lemma ConcatDrop(calls: seq<PageCall>, n: nat)
    requires n < |calls|
    ensures Concat(calls[n..]) == PhotosOf(calls[n].response) + Concat(calls[n + 1..])
  {
    assert calls[n..][1..] == calls[n + 1..];
  }

  /** The page loop keeps the calls made before it and makes at most one per page up to `lastPage`. */
  lemma {:induction false} PagesFromCount(call: PageCaller, page: int, lastPage: int, start: nat, acc: LoopTrace)
    ensures var t := PagesFrom(call, page, lastPage, start, acc);
      |acc.calls| <= |t.calls| <= |acc.calls| + Max(0, lastPage - page + 1)
    ensures var t := PagesFrom(call, page, lastPage, start, acc);
      t.calls[..|acc.calls|] == acc.calls
    decreases lastPage - page + 1
  {
    var n := |acc.calls|;
    if page <= lastPage {
      var c := call(page, start + acc.used);
      var next := LoopTrace(acc.photos + PhotosOf(c.response), acc.calls + [PageCall(page, c.response)], acc.used + c.used, acc.sleeps + c.sleeps);
      if HasPhotoList(c.response) {
        PagesFromCount(call, page + 1, lastPage, start, next);
        var t := PagesFrom(call, page + 1, lastPage, start, next);
        assert t.calls[..n] == next.calls[..n + 1][..n];
      }
    }
  }

  /** The page loop from `page` on asks for consecutive pages, one call per page. */
  lemma {:induction false} PagesFromPages(call: PageCaller, page: int, lastPage: int, start: nat, acc: LoopTrace)
    ensures var t := PagesFrom(call, page, lastPage, start, acc);
      forall i :: |acc.calls| <= i < |t.calls| ==> t.calls[i].page == page + (i - |acc.calls|)
    decreases lastPage - page + 1
  {
    var n := |acc.calls|;
    if page <= lastPage {
      var c := call(page, start + acc.used);
      var pc := PageCall(page, c.response);
      var next := LoopTrace(acc.photos + PhotosOf(c.response), acc.calls + [pc], acc.used + c.used, acc.sleeps + c.sleeps);
      PagesFromStep(call, page, lastPage, start, acc, c);
      if HasPhotoList(c.response) {
        PagesFromPages(call, page + 1, lastPage, start, next);
        PagesFromCount(call, page + 1, lastPage, start, next);
        var t := PagesFrom(call, page + 1, lastPage, start, next);
        assert PagesFrom(call, page, lastPage, start, acc) == t;
        assert t.calls[n] == pc by {
          assert t.calls[..n + 1][n] == next.calls[n];
        }
      } else {
        assert PagesFrom(call, page, lastPage, start, acc) == next;
      }
    }
  }

  /** Every call of the page loop but its last got a photo list. */
  lemma {:induction false} PagesFromGoesOn(call: PageCaller, page: int, lastPage: int, start: nat, acc: LoopTrace)
    ensures var t := PagesFrom(call, page, lastPage, start, acc);
      forall i :: |acc.calls| <= i < |t.calls| - 1 ==> HasPhotoList(t.calls[i].response)
    decreases lastPage - page + 1
  {
    var n := |acc.calls|;
    if page <= lastPage {
      var c := call(page, start + acc.used);
      var pc := PageCall(page, c.response);
      var next := LoopTrace(acc.photos + PhotosOf(c.response), acc.calls + [pc], acc.used + c.used, acc.sleeps + c.sleeps);
      PagesFromStep(call, page, lastPage, start, acc, c);
      if HasPhotoList(c.response) {
        PagesFromGoesOn(call, page + 1, lastPage, start, next);
        PagesFromCount(call, page + 1, lastPage, start, next);
        var t := PagesFrom(call, page + 1, lastPage, start, next);
        assert PagesFrom(call, page, lastPage, start, acc) == t;
        assert t.calls[n] == pc by {
          assert t.calls[..n + 1][n] == next.calls[n];
        }
      } else {
        assert PagesFrom(call, page, lastPage, start, acc) == next;
      }
    }
  }

  /** A page loop that made fewer calls than there are pages left stopped right after a call with no photo list. */
  lemma {:induction false} PagesFromStopsEarly(call: PageCaller, page: int, lastPage: int, start: nat, acc: LoopTrace)
    ensures var t := PagesFrom(call, page, lastPage, start, acc);
      |t.calls| < |acc.calls| + Max(0, lastPage - page + 1) ==>
        |t.calls| > |acc.calls| && !HasPhotoList(t.calls[|t.calls| - 1].response)
    decreases lastPage - page + 1
  {
    var n := |acc.calls|;
    if page <= lastPage {
      var c := call(page, start + acc.used);
      var pc := PageCall(page, c.response);
      var next := LoopTrace(acc.photos + PhotosOf(c.response), acc.calls + [pc], acc.used + c.used, acc.sleeps + c.sleeps);
      PagesFromStep(call, page, lastPage, start, acc, c);
      if HasPhotoList(c.response) {
        PagesFromStopsEarly(call, page + 1, lastPage, start, next);
        PagesFromCount(call, page + 1, lastPage, start, next);
        var t := PagesFrom(call, page + 1, lastPage, start, next);
        assert PagesFrom(call, page, lastPage, start, acc) == t;
        assert t.calls[n] == pc by {
          assert t.calls[..n + 1][n] == next.calls[n];
        }
      } else {
        assert PagesFrom(call, page, lastPage, start, acc) == next;
      }
    }
  }

  /** The page loop keeps the photo lists of its calls, in call order. */
  lemma {:induction false} PagesFromPhotos(call: PageCaller, page: int, lastPage: int, start: nat, acc: LoopTrace)
    ensures var t := PagesFrom(call, page, lastPage, start, acc);
      |acc.calls| <= |t.calls| && t.photos == acc.photos + Concat(t.calls[|acc.calls|..])
    decreases lastPage - page + 1
  {
    var n := |acc.calls|;
    if page > lastPage {
      assert acc.calls[n..] == [];
    } else {
      var c := call(page, start + acc.used);
      var pc := PageCall(page, c.response);
      var next := LoopTrace(acc.photos + PhotosOf(c.response), acc.calls + [pc], acc.used + c.used, acc.sleeps + c.sleeps);
      PagesFromStep(call, page, lastPage, start, acc, c);
      if HasPhotoList(c.response) {
        PagesFromPhotos(call, page + 1, lastPage, start, next);
        PagesFromCount(call, page + 1, lastPage, start, next);
        var t := PagesFrom(call, page + 1, lastPage, start, next);
        assert PagesFrom(call, page, lastPage, start, acc) == t;
        assert t.photos == (acc.photos + PhotosOf(c.response)) + Concat(t.calls[n + 1..]);
        assert t.calls[n] == pc by {
          assert t.calls[..n + 1][n] == next.calls[n];
        }
        ConcatDrop(t.calls, n);
        AppendAssoc(acc.photos, PhotosOf(c.response), Concat(t.calls[n + 1..]));
      } else {
        assert PagesFrom(call, page, lastPage, start, acc) == next;
        assert next.calls[n..] == [pc];
        assert Concat([pc]) == PhotosOf(c.response) + Concat([]);
      }
    }
  }

  /** Each call of the page loop consumes at most `m` attempts when every call does. */
  lemma {:induction false} PagesFromUsed(call: PageCaller, m: nat, page: int, lastPage: int, start: nat, acc: LoopTrace)
    requires forall p: int, cursor: nat :: call(p, cursor).used <= m
    ensures var t := PagesFrom(call, page, lastPage, start, acc);
      acc.used <= t.used <= acc.used + (|t.calls| - |acc.calls|) * m
    decreases lastPage - page + 1
  {
    if page <= lastPage {
      var c := call(page, start + acc.used);
      var next := LoopTrace(acc.photos + PhotosOf(c.response), acc.calls + [PageCall(page, c.response)], acc.used + c.used, acc.sleeps + c.sleeps);
      if HasPhotoList(c.response) {
        PagesFromUsed(call, m, page + 1, lastPage, start, next);
        var t := PagesFrom(call, page + 1, lastPage, start, next);
        var k := |t.calls| - |next.calls|;
        assert (k + 1) * m == k * m + m;
      }
    }
  }

  /** The page loop the fetch runs after a first response with `photos` and a nonzero `total`. */
  function FetchLoop(remote: Remote, cfg: RetryConfig, date: string, start: nat): LoopTrace {
    var first := CallSpec(remote, cfg, Request(date, PageSize, 1), start);
    PagesFrom(CallerOf(remote, cfg, date), 2, if HasPhotos(first.response) then Pages(first.response) else 0, start,
              LoopTrace(if HasPhotos(first.response) then FirstPhotos(first.response) else [], [PageCall(1, first.response)], first.used, first.sleeps))
  }

  lemma FetchIsLoop(remote: Remote, cfg: RetryConfig, date: string, start: nat)
    ensures var first := CallSpec(remote, cfg, Request(date, PageSize, 1), start).response;
      var f := FetchSpec(remote, cfg, date, start);
      HasPhotos(first) && Total(first) != 0 ==>
        var t := FetchLoop(remote, cfg, date, start);
        f == FetchTrace(Some(t.photos), t.calls, t.used, t.sleeps)
  {
  }

  /**
   * `fetch_popular_photos_for_date`: page 1 is asked for first, then pages 2, 3, … in
   * order; the result is None exactly when the first response has no `photos`, and []
   * when its `total` is 0, both after that one call.
   */
  lemma FetchShape(remote: Remote, cfg: RetryConfig, date: string, start: nat)
    ensures var f := FetchSpec(remote, cfg, date, start);
      var first := CallSpec(remote, cfg, Request(date, PageSize, 1), start).response;
      && |f.calls| >= 1 && f.calls[0].response == first
      && (forall i :: 0 <= i < |f.calls| ==> f.calls[i].page == i + 1)
      && (f.photos.None? <==> !HasPhotos(first))
      && (!HasPhotos(first) || Total(first) == 0 ==> |f.calls| == 1)
      && (HasPhotos(first) && Total(first) == 0 ==> f.photos == Some([]))
  {
    var c := CallSpec(remote, cfg, Request(date, PageSize, 1), start);
    var first := c.response;
    if HasPhotos(first) && Total(first) != 0 {
      FetchIsLoop(remote, cfg, date, start);
      var acc := LoopTrace(FirstPhotos(first), [PageCall(1, first)], c.used, c.sleeps);
      var call := CallerOf(remote, cfg, date);
      PagesFromCount(call, 2, Pages(first), start, acc);
      PagesFromPages(call, 2, Pages(first), start, acc);
      var t := PagesFrom(call, 2, Pages(first), start, acc);
      assert t.calls[..1] == [PageCall(1, first)];
      assert t.calls[0] == PageCall(1, first);
    }
  }

  /**
   * When the first response has photos and a nonzero `total`, the result is the first
   * page's photos followed by those of the later pages; at most `pages` calls are made,
   * and they stop before `pages` only right after a page whose response had no photo list.
   */
  lemma FetchPhotos(remote: Remote, cfg: RetryConfig, date: string, start: nat)
    ensures var f := FetchSpec(remote, cfg, date, start);
      var first := CallSpec(remote, cfg, Request(date, PageSize, 1), start).response;
      HasPhotos(first) && Total(first) != 0 ==>
        && |f.calls| >= 1 && f.photos == Some(FirstPhotos(first) + Concat(f.calls[1..]))
        && |f.calls| <= Max(1, Pages(first))
        && (forall i :: 1 <= i < |f.calls| - 1 ==> HasPhotoList(f.calls[i].response))
        && (|f.calls| < Max(1, Pages(first)) ==> !HasPhotoList(f.calls[|f.calls| - 1].response))
  {
    var c := CallSpec(remote, cfg, Request(date, PageSize, 1), start);
    var first := c.response;
    if HasPhotos(first) && Total(first) != 0 {
      FetchIsLoop(remote, cfg, date, start);
      var acc := LoopTrace(FirstPhotos(first), [PageCall(1, first)], c.used, c.sleeps);
      var call := CallerOf(remote, cfg, date);
      PagesFromCount(call, 2, Pages(first), start, acc);
      PagesFromGoesOn(call, 2, Pages(first), start, acc);
      PagesFromStopsEarly(call, 2, Pages(first), start, acc);
      PagesFromPhotos(call, 2, Pages(first), start, acc);
    }
  }

  /** Each call of the fetch consumes at most MAX_RETRIES attempts. */
  lemma FetchUsed(remote: Remote, cfg: RetryConfig, date: string, start: nat)
    ensures var f := FetchSpec(remote, cfg, date, start);
      f.used <= |f.calls| * cfg.maxRetries
  {
    var c := CallSpec(remote, cfg, Request(date, PageSize, 1), start);
    CallSpecUsed(remote, cfg, Request(date, PageSize, 1), start);
    var first := c.response;
    if HasPhotos(first) && Total(first) != 0 {
      FetchIsLoop(remote, cfg, date, start);
      var call := CallerOf(remote, cfg, date);
      var acc := LoopTrace(FirstPhotos(first), [PageCall(1, first)], c.used, c.sleeps);
      forall p: int, cursor: nat
        ensures call(p, cursor).used <= cfg.maxRetries
      {
        CallSpecUsed(remote, cfg, Request(date, PageSize, p), cursor);
      }
      PagesFromUsed(call, cfg.maxRetries, 2, Pages(first), start, acc);
      PagesFromCount(call, 2, Pages(first), start, acc);
      var t := PagesFrom(call, 2, Pages(first), start, acc);
      var m := cfg.maxRetries;
      assert (|t.calls| - 1) * m + m == |t.calls| * m;
    }
  }
}
