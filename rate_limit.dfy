/** The in-memory fixed-window rate limiter: a store from client key to the
    number of requests counted in the current window and the time (in
    milliseconds) the window ends. A refused request is answered with status
    429 and a `Retry-After` header, as section 4 of RFC 6585 describes. The
    clock and the 1-in-1000 random clean-up are inputs. */
module RateLimit {
  import opened Wrappers
  import opened Text

  datatype Record = Record(count: int, resetTime: int)

  type Store = map<string, Record>

  datatype Decision = Allowed | Limited(retryAfter: int, resetTime: int)

  /** `Math.ceil(x / d)` for a positive divisor. */
  function CeilDiv(x: int, d: int): (q: int)
    requires d > 0
    ensures (q - 1) * d < x <= q * d
    ensures x >= 0 ==> q >= 0
  {
    (x + d - 1) / d
  }

  /** The request opens a new window: the key is unknown or its window has ended. */
  predicate StartsWindow(store: Store, key: string, now: int) {
    key !in store || now > store[key].resetTime
  }

  /** One request for `key` at `now`: the decision and the store after it. */
  function Step(store: Store, key: string, now: int, limit: int, window: int): (r: (Decision, Store))
    ensures r.0.Allowed? <==> StartsWindow(store, key, now) || store[key].count < limit
    ensures r.0.Allowed? ==> key in r.1 && forall k :: k != key ==> (k in r.1 <==> k in store) && (k in store ==> r.1[k] == store[k])
    ensures StartsWindow(store, key, now) ==> r.1[key] == Record(1, now + window)
    ensures !StartsWindow(store, key, now) && r.0.Allowed? ==>
      r.1[key] == Record(store[key].count + 1, store[key].resetTime)
    ensures r.0.Limited? ==>
      && r.1 == store
      && r.0.resetTime == store[key].resetTime
      && r.0.retryAfter == CeilDiv(store[key].resetTime - now, 1000)
      && r.0.retryAfter >= 0
  {
    if StartsWindow(store, key, now) then
      (Allowed, store[key := Record(1, now + window)])
    else if store[key].count >= limit then
      (Limited(CeilDiv(store[key].resetTime - now, 1000), store[key].resetTime), store)
    else
      (Allowed, store[key := Record(store[key].count + 1, store[key].resetTime)])
  }

  /** The store without the entries whose window ended before `now`. */
  function Cleaned(store: Store, now: int): (r: Store)
    ensures forall k :: k in r <==> k in store && store[k].resetTime >= now
    ensures forall k :: k in r ==> r[k] == store[k]
  {
    map k | k in store && store[k].resetTime >= now :: store[k]
  }

  /** A clean-up never removes the key of a request still inside its window,
      so it does not change the decision for that request. */
  lemma CleanupKeepsDecision(store: Store, key: string, now: int, limit: int, window: int)
    ensures Step(Cleaned(store, now), key, now, limit, window).0 == Step(store, key, now, limit, window).0
  {
  }

  /** The number of requests allowed when requests for `key` arrive at `times`. */
  function Admitted(store: Store, key: string, times: seq<int>, limit: int, window: int): (n: nat)
    ensures n <= |times|
    decreases |times|
  {
    if times == [] then 0
    else
      var (d, next) := Step(store, key, times[0], limit, window);
      (if d.Allowed? then 1 else 0) + Admitted(next, key, times[1..], limit, window)
  }

  function Min(a: int, b: int): int { if a <= b then a else b }
  function Max(a: int, b: int): int { if a >= b then a else b }

  /** Inside an open window whose count is `c`, `limit - c` more requests are allowed. */
  lemma {:induction false} AdmittedInsideWindow(store: Store, key: string, times: seq<int>, limit: int, window: int)
    requires key in store
    requires forall k :: 0 <= k < |times| ==> times[k] <= store[key].resetTime
    ensures Admitted(store, key, times, limit, window) == Min(|times|, Max(limit - store[key].count, 0))
  {
    if times != [] {
      var (d, next) := Step(store, key, times[0], limit, window);
      assert !StartsWindow(store, key, times[0]);
      assert next[key].resetTime == store[key].resetTime;
      assert forall k :: 0 <= k < |times[1..]| ==> times[1..][k] == times[k + 1];
      AdmittedInsideWindow(next, key, times[1..], limit, window);
    }
  }

  /** Within one window exactly `max(limit, 1)` requests are allowed: the
      request that opens it always is, even with a limit of 0, and the rest
      are refused once the count reaches the limit. */
  lemma {:induction false} WindowAdmitsExactly(store: Store, key: string, times: seq<int>, limit: int, window: int)
    requires |times| >= 1 && StartsWindow(store, key, times[0])
    requires forall k :: 1 <= k < |times| ==> times[k] <= times[0] + window
    ensures Admitted(store, key, times, limit, window) == Min(|times|, Max(limit, 1))
  {
    var (d, next) := Step(store, key, times[0], limit, window);
    assert d == Allowed && next[key] == Record(1, times[0] + window);
    assert forall k :: 0 <= k < |times[1..]| ==> times[1..][k] == times[k + 1];
    AdmittedInsideWindow(next, key, times[1..], limit, window);
  }

  /** The 429 answer. */
  datatype LimitedResponse = LimitedResponse(
    status: int, error: string, message: string, retryAfter: int, headers: map<string, string>)

  function TooManyRequests(retryAfter: int, limit: int, resetTime: int): (r: LimitedResponse)
    ensures r.status == 429
    ensures r.retryAfter == retryAfter
    ensures r.headers.Keys == {"Retry-After", "X-RateLimit-Limit", "X-RateLimit-Remaining", "X-RateLimit-Reset"}
    ensures r.headers["Retry-After"] == IntToString(r.retryAfter)
    ensures r.headers["X-RateLimit-Limit"] == IntToString(limit)
    ensures r.headers["X-RateLimit-Remaining"] == "0"
    ensures r.headers["X-RateLimit-Reset"] == IntToString(resetTime)
  {
    LimitedResponse(429, "Too many requests", "Rate limit exceeded. Please try again later.", retryAfter,
      map["Retry-After" := IntToString(retryAfter), "X-RateLimit-Limit" := IntToString(limit),
          "X-RateLimit-Remaining" := "0", "X-RateLimit-Reset" := IntToString(resetTime)])
  }

  /** `s.split(',')[0]`: everything before the first comma. */
  function BeforeComma(s: string): (r: string)
    ensures |r| <= |s| && r == s[..|r|]
    ensures ',' !in r
    ensures |r| < |s| ==> s[|r|] == ','
  {
    if s == [] || s[0] == ',' then [] else [s[0]] + BeforeComma(s[1..])
  }

  /** `getClientIP`: the first `x-forwarded-for` entry, trimmed, else
      `x-real-ip`, else "unknown". An empty header counts as absent. Header
      names are the lower-case names the request hands out. */
  function GetClientIP(headers: map<string, string>): (ip: string)
    ensures "x-forwarded-for" in headers && headers["x-forwarded-for"] != "" ==>
      ip == Trim(BeforeComma(headers["x-forwarded-for"]))
    ensures !("x-forwarded-for" in headers && headers["x-forwarded-for"] != "") ==>
      if "x-real-ip" in headers && headers["x-real-ip"] != "" then ip == headers["x-real-ip"] else ip == "unknown"
  {
    if "x-forwarded-for" in headers && headers["x-forwarded-for"] != "" then
      Trim(BeforeComma(headers["x-forwarded-for"]))
    else if "x-real-ip" in headers && headers["x-real-ip"] != "" then
      headers["x-real-ip"]
    else
      "unknown"
  }

  /** The predefined configurations: requests allowed per window, and the window in milliseconds. */
  datatype Options = Options(limit: int, window: int)
  const AUTH := Options(5, 60 * 1000)
  const STREAM_CREATE := Options(10, 60 * 60 * 1000)
  const UPVOTE := Options(100, 60 * 60 * 1000)
  const GENERAL := Options(100, 60 * 1000)

  class RateLimiter {
    var store: Store

    constructor()
      ensures store == map[]
    {
      store := map[];
    }

    /** `cleanupExpiredEntries`: every entry whose window ended before `now`
        is deleted, one key at a time. */
    method CleanupExpiredEntries(now: int)
      modifies this
      ensures store == Cleaned(old(store), now)
    {
      var keys := store.Keys;
      while keys != {}
        invariant keys <= old(store).Keys
        invariant forall k :: k in store <==> k in old(store) && (k in keys || old(store)[k].resetTime >= now)
        invariant forall k :: k in store ==> store[k] == old(store)[k]
        decreases keys
      {
        var k :| k in keys;
        if store[k].resetTime < now {
          store := store - {k};
        }
        keys := keys - {k};
      }
    }

    /** The store part of `rateLimit`: the record is read first, the clean-up
        runs when `runCleanup` (the random draw) says so, then the request is
        counted or refused. */
    method Check(key: string, now: int, limit: int, window: int, runCleanup: bool) returns (d: Decision)
      modifies this
      ensures var before := if runCleanup then Cleaned(old(store), now) else old(store);
        (d, store) == Step(before, key, now, limit, window)
    {
      var record := if key in store then Some(store[key]) else None;
      if runCleanup {
        CleanupExpiredEntries(now);
      }
      if record.None? || now > record.value.resetTime {
        store := store[key := Record(1, now + window)];
        return Allowed;
      }
      if record.value.count >= limit {
        return Limited(CeilDiv(record.value.resetTime - now, 1000), record.value.resetTime);
      }
      store := store[key := Record(record.value.count + 1, record.value.resetTime)];
      return Allowed;
    }

    /** `rateLimit`: the key is the caller's identifier when one is given,
        else the client address; `None` means the request may go on. */
    method RateLimitRequest(headers: map<string, string>, identifier: Option<string>, options: Options,
                            now: int, runCleanup: bool) returns (response: Option<LimitedResponse>)
      modifies this
      ensures var key := if identifier.Some? && identifier.value != "" then identifier.value else GetClientIP(headers);
        var before := if runCleanup then Cleaned(old(store), now) else old(store);
        var (d, next) := Step(before, key, now, options.limit, options.window);
        && store == next
        && (response.None? <==> d.Allowed?)
        && (response.Some? ==> response.value == TooManyRequests(d.retryAfter, options.limit, d.resetTime))
    {
      var key := if identifier.Some? && identifier.value != "" then identifier.value else GetClientIP(headers);
      var d := Check(key, now, options.limit, options.window, runCleanup);
      if d.Allowed? {
        return None;
      }
      return Some(TooManyRequests(d.retryAfter, options.limit, d.resetTime));
    }
  }
}
