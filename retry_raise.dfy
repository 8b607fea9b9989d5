/**
 * flickrGetDailyPhotoViews.py:59-106: `make_api_call_with_retry`, the driver script's
 * own retry loop. It retries rate limits and unexpected exceptions with the same capped
 * doubling delay as `_make_api_call`, but returns whatever the method returned without
 * looking at it, and re-raises where `_make_api_call` would return None.
 */
module RetryRaise {
  import opened Wrappers
  import opened FlickrApi
  import opened ApiHandler

  /** The call returned a value, raised an exception, or ran out of attempts (`return None`). */
  datatype RetryResult = Responded(value: Value) | Raised | Exhausted

  datatype RetryTrace = RetryTrace(result: RetryResult, used: nat, sleeps: seq<nat>)

  /** The rest of the loop from iteration `attempt`, with `retry_delay == delay`. */
  function RetryFrom(remote: Remote, cfg: RetryConfig, req: Request, start: nat, attempt: nat, delay: nat): RetryTrace
    decreases cfg.maxRetries - attempt
  {
    if attempt >= cfg.maxRetries then
      RetryTrace(Exhausted, attempt, [])
    else
      var o := remote(req, start + attempt);
      if o.Returned? then
        RetryTrace(Responded(o.value), attempt + 1, [])
      else if Retryable(o) && attempt < cfg.maxRetries - 1 then
        var rest := RetryFrom(remote, cfg, req, start, attempt + 1, Min(delay * 2, cfg.maxDelay));
        RetryTrace(rest.result, rest.used, [delay] + rest.sleeps)
      else
        RetryTrace(Raised, attempt + 1, [])
  }

  /** `make_api_call_with_retry(flickr, "stats.getPopularPhotos", **req)` made at attempt index `start`. */
  function RetrySpec(remote: Remote, cfg: RetryConfig, req: Request, start: nat): RetryTrace {
    RetryFrom(remote, cfg, req, start, 0, cfg.initialDelay)
  }

  function WithSleeps(s: seq<nat>, t: RetryTrace): RetryTrace {
    RetryTrace(t.result, t.used, s + t.sleeps)
  }

  /** One iteration of the retry loop, unfolded: attempt `attempt` gave `o`. */
  lemma RetryFromStep(remote: Remote, cfg: RetryConfig, req: Request, start: nat, attempt: nat, delay: nat, o: Outcome)
    requires attempt < cfg.maxRetries && o == remote(req, start + attempt)
    ensures o.Returned? ==>
      RetryFrom(remote, cfg, req, start, attempt, delay) == RetryTrace(Responded(o.value), attempt + 1, [])
    ensures !o.Returned? && Retryable(o) && attempt < cfg.maxRetries - 1 ==>
      RetryFrom(remote, cfg, req, start, attempt, delay) == WithSleeps([delay], RetryFrom(remote, cfg, req, start, attempt + 1, Min(delay * 2, cfg.maxDelay)))
    ensures !o.Returned? && !(Retryable(o) && attempt < cfg.maxRetries - 1) ==>
      RetryFrom(remote, cfg, req, start, attempt, delay) == RetryTrace(Raised, attempt + 1, [])
  {
  }

  /** A sleep taken now comes after those taken before it. */
  lemma WithSleepsAppend(s: seq<nat>, delay: nat, t: RetryTrace)
    ensures WithSleeps(s, WithSleeps([delay], t)) == WithSleeps(s + [delay], t)
  {
    AppendAssoc(s, [delay], t.sleeps);
  }

  /** `make_api_call_with_retry`. */
  method MakeApiCallWithRetry(remote: Remote, cfg: RetryConfig, req: Request, start: nat)
    returns (result: RetryResult, used: nat, ghost sleeps: seq<nat>)
    ensures RetryTrace(result, used, sleeps) == RetrySpec(remote, cfg, req, start)
    ensures result == RetrySpec(remote, cfg, req, start).result && used == RetrySpec(remote, cfg, req, start).used
  {
    ghost var whole := RetrySpec(remote, cfg, req, start);
    var retryDelay := cfg.initialDelay;
    sleeps := [];
    for attempt := 0 to cfg.maxRetries
      invariant whole == WithSleeps(sleeps, RetryFrom(remote, cfg, req, start, attempt, retryDelay))
    {
      var outcome := remote(req, start + attempt);
      RetryFromStep(remote, cfg, req, start, attempt, retryDelay, outcome);
      ghost var later := RetryFrom(remote, cfg, req, start, attempt + 1, Min(retryDelay * 2, cfg.maxDelay));
      match outcome {
        case Returned(v) =>
          return Responded(v), attempt + 1, sleeps;
        case FlickrError(code) =>
          if IsRateLimit(code) && attempt < cfg.maxRetries - 1 {
            WithSleepsAppend(sleeps, retryDelay, later);
            sleeps := sleeps + [retryDelay];
            retryDelay := Min(retryDelay * 2, cfg.maxDelay);
          } else {
            // any other Flickr error, or a rate limit on the last attempt: raise
            return Raised, attempt + 1, sleeps;
          }
        case OtherException =>
          if attempt < cfg.maxRetries - 1 {
            WithSleepsAppend(sleeps, retryDelay, later);
            sleeps := sleeps + [retryDelay];
            retryDelay := Min(retryDelay * 2, cfg.maxDelay);
          } else {
            return Raised, attempt + 1, sleeps;
          }
      }
    }
    return Exhausted, cfg.maxRetries, sleeps;
  }

  /**
   * Both retry loops make the same attempts and take the same sleeps; they differ in
   * what they report. `_make_api_call` gives a response exactly when this loop got one
   * back that is a dict with `stat` "ok", and None in every other case, where this loop
   * either hands the value back unchecked or raises.
   */
  lemma {:induction false} SameAttemptsAsCallFrom(remote: Remote, cfg: RetryConfig, req: Request, start: nat, attempt: nat, delay: nat)
    ensures var t := RetryFrom(remote, cfg, req, start, attempt, delay);
      var c := CallFrom(remote, cfg, req, start, attempt, delay);
      && t.used == c.used && t.sleeps == c.sleeps
      && (c.response.Some? <==> t.result.Responded? && IsOkResponse(t.result.value))
      && (c.response.Some? ==> c.response.value == t.result.value)
      && (t.result.Exhausted? ==> c.response.None?)
    decreases cfg.maxRetries - attempt
  {
    if attempt < cfg.maxRetries {
      var o := remote(req, start + attempt);
      if !o.Returned? && Retryable(o) && attempt < cfg.maxRetries - 1 {
        SameAttemptsAsCallFrom(remote, cfg, req, start, attempt + 1, Min(delay * 2, cfg.maxDelay));
      }
    }
  }

  /**
   * One `make_api_call_with_retry`: at most MAX_RETRIES attempts, every one but the last a
   * retried failure followed by one sleep, the j-th lasting `Delay(cfg, j)`; the last
   * attempt's value is returned whatever it is; a failure on the last attempt, or a Flickr
   * error that is not a rate limit, raises. With MAX_RETRIES >= 1 the final `return None`
   * is never reached.
   */
  lemma RetrySpecShape(remote: Remote, cfg: RetryConfig, req: Request, start: nat)
    ensures var t := RetrySpec(remote, cfg, req, start);
      && t.used <= cfg.maxRetries
      && (t.result.Exhausted? <==> cfg.maxRetries == 0)
      && |t.sleeps| == (if t.used == 0 then 0 else t.used - 1)
      && (forall j :: 0 <= j < |t.sleeps| ==> t.sleeps[j] == Delay(cfg, j))
      && (forall k :: start <= k < start + t.used - 1 ==> Retryable(remote(req, k)))
      && (t.used > 0 ==>
            var last := remote(req, start + t.used - 1);
            && (t.result.Responded? <==> last.Returned?)
            && (t.result.Responded? ==> t.result.value == last.value)
            && (t.result.Raised? <==> !last.Returned?)
            && (Retryable(last) ==> t.used == cfg.maxRetries))
  {
    SameAttemptsAsCallFrom(remote, cfg, req, start, 0, cfg.initialDelay);
    CallSpecShape(remote, cfg, req, start);
    LastOutcome(remote, cfg, req, start, 0, cfg.initialDelay);
  }

  lemma {:induction false} LastOutcome(remote: Remote, cfg: RetryConfig, req: Request, start: nat, attempt: nat, delay: nat)
    ensures var t := RetryFrom(remote, cfg, req, start, attempt, delay);
      && (attempt < cfg.maxRetries ==> t.used > attempt)
      && (t.result.Exhausted? <==> attempt >= cfg.maxRetries)
      && (t.used > attempt ==>
            var last := remote(req, start + t.used - 1);
            && (t.result.Responded? <==> last.Returned?)
            && (t.result.Responded? ==> t.result.value == last.value))
    decreases cfg.maxRetries - attempt
  {
    if attempt < cfg.maxRetries {
      var o := remote(req, start + attempt);
      if !o.Returned? && Retryable(o) && attempt < cfg.maxRetries - 1 {
        LastOutcome(remote, cfg, req, start, attempt + 1, Min(delay * 2, cfg.maxDelay));
      }
    }
  }
}
