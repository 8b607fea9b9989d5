/**
 * The remote service as the core sees it: what one call of the Flickr method
 * `stats.getPopularPhotos` can return or raise, the request parameters, and the
 * retry configuration both retry loops share (config.py:10-12 and
 * flickrGetDailyPhotoViews.py:34-36 hold the same values).
 *
 * The service itself is an oracle: `remote(req, n)` is what the n-th remote attempt
 * of the run produces when it sends `req`. Any behaviour of the service during one
 * run, including transient failures and answers that change between attempts, is
 * some such function.
 */
module FlickrApi {
  import opened Wrappers

  /** One key of a JSON object: not there, there with `null`, or there with a value. */
  datatype Key<T> = Absent | Null | Given(value: T)

  /** `d.get(key)`, and `d[key]` where it does not raise: None for an absent key or a null value. */
  function Get<T>(k: Key<T>): (r: Option<T>)
    ensures r.Some? <==> k.Given?
    ensures r.Some? ==> r.value == k.value
  {
    if k.Given? then Some(k.value) else None
  }

  /** The `stats` object of a photo. */
  datatype Stats = Stats(views: Key<string>, favorites: Key<string>)

  /** One entry of `photos.photo`. */
  datatype Photo = Photo(
    id: Key<string>,
    title: Key<string>,
    stats: Key<Stats>,
    secret: Key<string>,
    server: Key<string>)

  /** The `photos` envelope: declared page count, declared photo count, this page's photos. */
  datatype Envelope = Envelope(pages: Option<int>, total: Option<int>, photo: Option<seq<Photo>>)

  /**
   * The value the API method returned: something false in Python's sense (None, an
   * empty dict), something true that is not a dict, or a non-empty dict with its
   * `stat` and `photos` keys.
   */
  datatype Value =
    | Falsy
    | NotADict
    | Dict(stat: Option<string>, photos: Option<Envelope>)

  /** The `code` of a `flickrapi.exceptions.FlickrError`. */
  datatype ErrorCode = Code(n: int) | Text(s: string) | NoCode

  /** One remote attempt: it returned a value, raised FlickrError, or raised some other exception. */
  datatype Outcome =
    | Returned(value: Value)
    | FlickrError(code: ErrorCode)
    | OtherException

  datatype Request = Request(date: string, perPage: int, page: int)

  type Remote = (Request, nat) -> Outcome

  datatype RetryConfig = RetryConfig(maxRetries: nat, initialDelay: nat, maxDelay: nat)

  /** MAX_RETRIES, INITIAL_RETRY_DELAY and MAX_RETRY_DELAY. */
  const Defaults: RetryConfig := RetryConfig(3, 2, 60)

  /** FLICKR_PAGE_SIZE, and the literal `per_page` of the driver script. */
  const PageSize: int := 100

  /** `e.code in [105, "Rate Limit Exceeded"]`. */
  predicate IsRateLimit(code: ErrorCode) {
    code == Code(105) || code == Text("Rate Limit Exceeded")
  }

  // ---------------------------------------------------------------------------
  // The backoff schedule

  /** `retry_delay` after i retried failures: start at the initial delay, then `min(delay * 2, max)`. */
  function Delay(cfg: RetryConfig, i: nat): nat {
    if i == 0 then cfg.initialDelay else Min(2 * Delay(cfg, i - 1), cfg.maxDelay)
  }

  function Pow2(n: nat): nat {
    if n == 0 then 1 else 2 * Pow2(n - 1)
  }

  /** The delay of the (i+1)-th sleep is `min(INITIAL_RETRY_DELAY * 2^i, MAX_RETRY_DELAY)`. */
  lemma {:induction false} DelayClosedForm(cfg: RetryConfig, i: nat)
    requires cfg.initialDelay <= cfg.maxDelay
    ensures Delay(cfg, i) == Min(cfg.initialDelay * Pow2(i), cfg.maxDelay)
  {
    if i > 0 {
      DelayClosedForm(cfg, i - 1);
      assert cfg.initialDelay * Pow2(i) == 2 * (cfg.initialDelay * Pow2(i - 1));
    }
  }

  /** Delays never shrink and, after the first, never exceed the cap (the first does not either when it is within the cap). */
  lemma {:induction false} DelayMonotone(cfg: RetryConfig, i: nat, j: nat)
    requires i <= j
    requires cfg.initialDelay <= cfg.maxDelay
    ensures Delay(cfg, i) <= Delay(cfg, j) <= cfg.maxDelay
    decreases j - i
  {
    if i < j {
      DelayMonotone(cfg, i, j - 1);
      DelayAtMostCap(cfg, j - 1);
    } else {
      DelayAtMostCap(cfg, j);
    }
  }

  lemma DelayAtMostCap(cfg: RetryConfig, i: nat)
    requires cfg.initialDelay <= cfg.maxDelay
    ensures Delay(cfg, i) <= cfg.maxDelay
  {
  }

  /** With the shipped configuration the first two delays are 2 and 4 seconds. */
  lemma DefaultDelays()
    ensures Delay(Defaults, 0) == 2 && Delay(Defaults, 1) == 4
  {
  }
}
