/**
 * The rate-limit middleware (src/middleware/rate-limit.ts): a fixed-window
 * counter per key in one module-level store shared by every limiter. Each
 * request first sweeps out stale entries, then creates its key's entry if
 * absent, then either rejects (429) or counts the request and reports the
 * X-RateLimit headers.
 *
 * The request key (built from headers, the path or the user id) and the
 * clock are inputs.
 */
module RateLimit {
  import opened Errors
  import opened JsMath

  /** One key's window: requests counted so far and when the window was meant to end. */
  datatype Entry = Entry(count: nat, resetTime: int)

  /** A limiter's options. */
  datatype Options = Options(windowMs: int, maxRequests: int)

  /** The presets: five sign-in attempts, 100 API calls and ten writes per minute. */
  const AuthRateLimit := Options(60 * 1000, 5)
  const ApiRateLimit := Options(60 * 1000, 100)
  const WriteRateLimit := Options(60 * 1000, 10)

  const LimitMessage := "Too many requests, please try again later"

  /**
   * What the middleware does with a request: reject it with the Retry-After
   * header (in seconds) and the error it throws, or let it through with the
   * X-RateLimit-Limit, -Remaining and -Reset headers.
   */
  datatype Decision =
    | Rejected(retryAfter: int, error: AppError)
    | Accepted(limit: int, remaining: int, reset: int)

  datatype LimitStep = LimitStep(entries: map<string, Entry>, decision: Decision)

  /** The sweep: every entry whose `resetTime` is before `windowStart` is deleted. */
  function Swept(entries: map<string, Entry>, windowStart: int): (r: map<string, Entry>)
    ensures forall k :: k in r <==> k in entries && entries[k].resetTime >= windowStart
    ensures forall k :: k in r ==> r[k] == entries[k]
  {
    map k | k in entries && entries[k].resetTime >= windowStart :: entries[k]
  }

  /** The key's entry after the sweep: the surviving one, or a fresh window starting now. */
  function CurrentEntry(entries: map<string, Entry>, key: string, now: int, opts: Options): Entry
  {
    var swept := Swept(entries, now - opts.windowMs);
    if key in swept then swept[key] else Entry(0, now + opts.windowMs)
  }

  /** The middleware body as a function of the store before the request. */
  function LimitSpec(entries: map<string, Entry>, key: string, now: int, opts: Options): LimitStep
  {
    var swept := Swept(entries, now - opts.windowMs);
    var e := CurrentEntry(entries, key, now, opts);
    if e.count >= opts.maxRequests then
      LimitStep(swept[key := e],
                Rejected(CeilDiv(e.resetTime - now, 1000), NewAppError(LimitMessage, 429, "RATE_LIMIT_EXCEEDED")))
    else
      LimitStep(swept[key := e.(count := e.count + 1)],
                Accepted(opts.maxRequests, opts.maxRequests - (e.count + 1), e.resetTime))
  }

  /** The module-level store, updated in place by every request. */
  class RateLimitStore {
    var entries: map<string, Entry>

    constructor ()
      ensures entries == map[]
    {
      entries := map[];
    }

    /** `Object.keys(store).forEach(...)`: visits every key once and deletes the stale ones. */
    method Sweep(windowStart: int)
      modifies this
      ensures entries == Swept(old(entries), windowStart)
    {
      ghost var start := entries;
      var pending := entries.Keys;
      while pending != {}
        invariant pending <= start.Keys
        invariant entries == map k | k in start && (k in pending || start[k].resetTime >= windowStart) :: start[k]
        decreases pending
      {
        var k :| k in pending;
        if entries[k].resetTime < windowStart {
          entries := entries - {k};
        }
        pending := pending - {k};
      }
    }

    /** One request through the middleware. */
    method Check(key: string, now: int, opts: Options) returns (d: Decision)
      modifies this
      ensures LimitStep(entries, d) == LimitSpec(old(entries), key, now, opts)
    {
      Sweep(now - opts.windowMs);
      if key !in entries {
        entries := entries[key := Entry(0, now + opts.windowMs)];
      }
      var e := entries[key];
      if e.count >= opts.maxRequests {
        var retryAfter := CeilDiv(e.resetTime - now, 1000);
        return Rejected(retryAfter, NewAppError(LimitMessage, 429, "RATE_LIMIT_EXCEEDED"));
      }
      entries := entries[key := e.(count := e.count + 1)];
      return Accepted(opts.maxRequests, opts.maxRequests - entries[key].count, entries[key].resetTime);
    }
  }

  // ---------------------------------------------------------------------------
  // Properties

  /**
   * A request is rejected exactly when its key's count has reached the
   * maximum; a rejection stores the key's entry unchanged, an acceptance adds
   * one to it. Either way every other surviving key keeps its entry, and the
   * stale keys are gone.
   */
  lemma RejectIffAtLimit(entries: map<string, Entry>, key: string, now: int, opts: Options)
    ensures var s := LimitSpec(entries, key, now, opts);
      var e := CurrentEntry(entries, key, now, opts);
      && (s.decision.Rejected? <==> e.count >= opts.maxRequests)
      && (s.decision.Rejected? ==> key in s.entries && s.entries[key] == e)
      && (s.decision.Accepted? ==> key in s.entries && s.entries[key] == Entry(e.count + 1, e.resetTime))
      && (forall k :: k != key ==>
            (k in s.entries <==> k in entries && entries[k].resetTime >= now - opts.windowMs)
            && (k in s.entries ==> s.entries[k] == entries[k]))
  {
  }

  /** The rejection is the plain application error with status 429 and code RATE_LIMIT_EXCEEDED. */
  lemma RejectionError(entries: map<string, Entry>, key: string, now: int, opts: Options)
    requires LimitSpec(entries, key, now, opts).decision.Rejected?
    ensures var err := LimitSpec(entries, key, now, opts).decision.error;
      && err.StatusCode() == 429 && err.Code() == "RATE_LIMIT_EXCEEDED"
      && err.message == "Too many requests, please try again later"
      && !err.kind.RateLimit?
  {
  }

  /** No key counts past the maximum. */
  predicate WithinLimit(entries: map<string, Entry>, maxRequests: int)
  {
    forall k :: k in entries ==> entries[k].count <= maxRequests
  }

  /** With a non-negative maximum, a request keeps every count within it. */
  lemma CountNeverExceedsMax(entries: map<string, Entry>, key: string, now: int, opts: Options)
    requires opts.maxRequests >= 0
    requires WithinLimit(entries, opts.maxRequests)
    ensures WithinLimit(LimitSpec(entries, key, now, opts).entries, opts.maxRequests)
  {
  }

  /** An accepted request reports the limit, the requests left (never negative) and the window end. */
  lemma RemainingHeader(entries: map<string, Entry>, key: string, now: int, opts: Options)
    requires LimitSpec(entries, key, now, opts).decision.Accepted?
    ensures var s := LimitSpec(entries, key, now, opts);
      && s.decision.limit == opts.maxRequests
      && s.decision.remaining == opts.maxRequests - s.entries[key].count
      && s.decision.remaining >= 0
      && s.decision.reset == s.entries[key].resetTime
  {
  }

  /** Retry-After is the time to the window's end, rounded up to whole seconds. */
  lemma RetryAfterSeconds(entries: map<string, Entry>, key: string, now: int, opts: Options)
    requires LimitSpec(entries, key, now, opts).decision.Rejected?
    ensures var s := LimitSpec(entries, key, now, opts);
      var wait := s.entries[key].resetTime - now;
      (s.decision.retryAfter - 1) * 1000 < wait <= s.decision.retryAfter * 1000
  {
  }

  /**
   * A key's count restarts only when its entry is swept, which is once the
   * clock passes `resetTime + windowMs`, not at `resetTime`: until then an
   * accepted request adds to the old count.
   */
  lemma CountResetsOnlyWhenSwept(entries: map<string, Entry>, key: string, now: int, opts: Options)
    requires key in entries
    ensures var s := LimitSpec(entries, key, now, opts);
      && (entries[key].resetTime >= now - opts.windowMs ==>
            s.entries[key].resetTime == entries[key].resetTime
            && s.entries[key].count == if s.decision.Accepted? then entries[key].count + 1 else entries[key].count)
      && (entries[key].resetTime < now - opts.windowMs ==>
            s.entries[key].resetTime == now + opts.windowMs
            && s.entries[key].count == if s.decision.Accepted? then 1 else 0)
  {
  }

  /**
   * So a key at its limit whose window ended before now, but not a whole
   * window ago, is still rejected, and told to retry after zero or fewer
   * seconds.
   */
  lemma StillLimitedAfterReset(entries: map<string, Entry>, key: string, now: int, opts: Options)
    requires key in entries
    requires entries[key].count >= opts.maxRequests
    requires now - opts.windowMs <= entries[key].resetTime <= now
    ensures LimitSpec(entries, key, now, opts).decision.Rejected?
    ensures LimitSpec(entries, key, now, opts).decision.retryAfter <= 0
  {
  }
}
