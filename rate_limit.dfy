/**
 * The gateway's per-IP token-bucket rate limiter. Every client address owns
 * a bucket of at most `requests_per_minute` tokens that refills continuously
 * at `requests_per_minute / 60` tokens per second; a request costs one token.
 * Token counts and times are exact reals and the clock is a parameter.
 */
module RateLimit {
  import opened Wrappers
  import opened PyValues
  import Text
  import opened HttpExchange

  /**
   * The address a request is counted against: the first hop of
   * X-Forwarded-For, else X-Real-IP, else the peer address, else "unknown".
   */
  function ClientIp(r: Request): (ip: string)
    ensures HeaderGiven(r, "X-Forwarded-For") ==> ',' !in ip
    ensures !HeaderGiven(r, "X-Forwarded-For") && HeaderGiven(r, "X-Real-IP") ==> ip == Header(r, "X-Real-IP").value
    ensures !HeaderGiven(r, "X-Forwarded-For") && !HeaderGiven(r, "X-Real-IP") ==>
              ip == if r.client.Some? then r.client.value else "unknown"
  {
    if HeaderGiven(r, "X-Forwarded-For") then
      TrimmedFirstHop(Header(r, "X-Forwarded-For").value)
    else if HeaderGiven(r, "X-Real-IP") then
      Header(r, "X-Real-IP").value
    else if r.client.Some? then
      r.client.value
    else
      "unknown"
  }

  /** `value.split(",")[0].strip()`. */
  function TrimmedFirstHop(value: string): (r: string)
    ensures ',' !in r
  {
    var hop := Text.BeforeFirst(value, ',');
    TrimKeepsAbsent(hop, ',');
    Text.Trim(hop, Text.Python)
  }

  lemma TrimKeepsAbsent(s: string, c: char)
    requires c !in s
    ensures c !in Text.Trim(s, Text.Python)
  {
    var e := Text.TrimEnd(s, Text.Python);
    assert forall x :: x in e ==> x in s;
    var t := Text.TrimStart(e, Text.Python);
    assert forall x :: x in t ==> x in e;
  }

  /** The address is the trimmed text before the first comma of X-Forwarded-For. */
  lemma ForwardedForFirstHop(r: Request, first: string, rest: string)
    requires Header(r, "X-Forwarded-For") == Some(first + [','] + rest)
    requires ',' !in first
    ensures ClientIp(r) == Text.Trim(first, Text.Python)
  {
    var s := first + [','] + rest;
    var hop := Text.BeforeFirst(s, ',');
    assert s[|first|] == ',';
    assert hop == s[..|hop|];
    assert |hop| == |first|;
    assert hop == first;
  }

  /** A bucket: the tokens left and the time they were counted. */
  datatype Bucket = Bucket(tokens: real, lastUpdate: real)

  /** What the bucket bounds promise: never more than `rpm` tokens, never fewer than none. */
  predicate Bounded(b: Bucket, rpm: int) {
    b.tokens <= rpm as real && (0 <= rpm ==> 0.0 <= b.tokens)
  }

  /** The bucket an address starts with: full, counted now. */
  function FullBucket(rpm: int, now: real): Bucket {
    Bucket(rpm as real, now)
  }

  function Min(a: real, b: real): real {
    if b < a then b else a
  }

  /** The tokens a bucket holds at `now`: the refill, capped at `rpm`. */
  function Refilled(b: Bucket, now: real, rpm: int): (t: real)
    ensures t <= rpm as real
    ensures b.lastUpdate <= now && 0 <= rpm ==> t >= b.tokens || t == rpm as real
  {
    Min(rpm as real, b.tokens + (now - b.lastUpdate) * (rpm as real / 60.0))
  }

  /**
   * One check at time `now`: whether the request is allowed and the bucket
   * stored afterwards. An allowed request takes one token.
   */
  function Check(b: Bucket, now: real, rpm: int): (r: (bool, Bucket))
    ensures r.1.lastUpdate == now
    ensures r.0 <==> 1 <= rpm && b.tokens + (now - b.lastUpdate) * (rpm as real / 60.0) >= 1.0
    ensures r.0 ==> 0.0 <= r.1.tokens <= rpm as real - 1.0
    ensures !r.0 ==> r.1.tokens < 1.0
    ensures Bounded(b, rpm) && b.lastUpdate <= now ==> Bounded(r.1, rpm)
  {
    var t := Refilled(b, now, rpm);
    if t >= 1.0 then (true, Bucket(t - 1.0, now)) else (false, Bucket(t, now))
  }

  /** `n` checks in a row, all at time `now`. */
  function Burst(b: Bucket, n: nat, now: real, rpm: int): Bucket
    decreases n
  {
    if n == 0 then b else Burst(Check(b, now, rpm).1, n - 1, now, rpm)
  }

  lemma {:induction false} BurstSpendsOnePerCheck(t: nat, k: nat, now: real, rpm: int)
    requires k <= t <= rpm
    ensures Burst(Bucket(t as real, now), k, now, rpm) == Bucket((t - k) as real, now)
    decreases k
  {
    if k > 0 {
      assert Check(Bucket(t as real, now), now, rpm).1 == Bucket((t - 1) as real, now);
      BurstSpendsOnePerCheck(t - 1, k - 1, now, rpm);
    }
  }

  /**
   * From a full bucket and with no time passing, exactly `rpm` requests are
   * allowed: the `k`-th check succeeds iff fewer than `rpm` came before it.
   */
  lemma FullBucketAllowsExactlyRpm(rpm: nat, now: real, k: nat)
    requires k <= rpm
    ensures Check(Burst(FullBucket(rpm, now), k, now, rpm), now, rpm).0 <==> k < rpm
  {
    BurstSpendsOnePerCheck(rpm, k, now, rpm);
  }

  /** A bucket refills to at most `rpm`, however long the client was idle. */
  lemma LongIdleRefillsToLimit(b: Bucket, now: real, rpm: nat)
    requires Bounded(b, rpm)
    requires b.lastUpdate + 60.0 <= now
    ensures Refilled(b, now, rpm) == rpm as real
  {
    var rate := rpm as real / 60.0;
    var extra := now - b.lastUpdate - 60.0;
    assert extra * rate >= 0.0;
    assert (now - b.lastUpdate) * rate == 60.0 * rate + extra * rate;
  }

  /** The paths that are never limited. */
  const ExemptPaths: seq<string> := ["/", "/health", "/docs", "/openapi.json", "/redoc"]

  /** Python's `int(x)`: truncation toward zero. */
  function Truncate(x: real): (i: int)
    ensures 0.0 <= x ==> i as real <= x < i as real + 1.0
    ensures x < 0.0 ==> i as real - 1.0 < x <= i as real
  {
    if 0.0 <= x then x.Floor else -((-x).Floor)
  }

  /** Python's `str(i)`. */
  function IntText(i: int): string {
    ValueText(Int(i))
  }

  /** The seconds a denied client is told to wait: one token's refill time, `60 / rpm`. */
  function RetryAfter(rpm: int): real
    requires rpm != 0
  {
    1.0 / (rpm as real / 60.0)
  }

  /** The 429 reply to a request that found its bucket empty. */
  function TooManyRequests(rpm: int): (r: Response)
    requires rpm != 0
    ensures r.status == 429
    ensures "X-RateLimit-Remaining" in r.headers && r.headers["X-RateLimit-Remaining"] == "0"
    ensures 0 < rpm ==> "Retry-After" in r.headers && r.headers["Retry-After"] == Text.NatToString(60 / rpm)
    ensures "X-RateLimit-Limit" in r.headers && (0 <= rpm ==> r.headers["X-RateLimit-Limit"] == Text.NatToString(rpm))
  {
    RetryAfterWholeSeconds(rpm);
    Response(
      429,
      map["X-RateLimit-Limit" := IntText(rpm),
          "X-RateLimit-Remaining" := "0",
          "Retry-After" := IntText(Truncate(RetryAfter(rpm)))],
      map["error" := Str("Too Many Requests"),
          "message" := Str("请求过于频繁，请稍后再试。限制: " + IntText(rpm) + " 请求/分钟"),
          "retry_after" := Num(RetryAfter(rpm))])
  }

  lemma RetryAfterWholeSeconds(rpm: int)
    requires rpm != 0
    ensures 0 < rpm ==> Truncate(RetryAfter(rpm)) == 60 / rpm
  {
    if 0 < rpm {
      var q := 60 / rpm;
      var x := RetryAfter(rpm);
      assert x * (rpm as real) == 60.0;
      assert q * rpm <= 60 < (q + 1) * rpm;
      assert (q as real) * (rpm as real) <= x * (rpm as real) < ((q + 1) as real) * (rpm as real);
      assert q as real <= x < (q + 1) as real;
    }
  }

  class RateLimiter {
    const requestsPerMinute: int
    /** The bucket of every address seen so far. */
    var buckets: map<string, Bucket>

    ghost predicate Valid()
      reads this
    {
      forall ip :: ip in buckets ==> Bounded(buckets[ip], requestsPerMinute)
    }

    constructor(rpm: int)
      ensures Valid()
      ensures requestsPerMinute == rpm && buckets == map[]
    {
      requestsPerMinute := rpm;
      buckets := map[];
    }

    /** The bucket of `ip`, or a full one counted now for an address not seen yet. */
    function BucketOf(ip: string, now: real): Bucket
      reads this
    {
      if ip in buckets then buckets[ip] else FullBucket(requestsPerMinute, now)
    }

    /** The clock has not gone back since `ip` was last counted. */
    predicate ClockMonotone(ip: string, now: real)
      reads this
    {
      ip in buckets ==> buckets[ip].lastUpdate <= now
    }

    method CheckRateLimit(ip: string, now: real) returns (allowed: bool, remaining: real)
      requires Valid() && ClockMonotone(ip, now)
      modifies this
      ensures Valid()
      ensures (allowed, Bucket(remaining, now)) == Check(old(BucketOf(ip, now)), now, requestsPerMinute)
      ensures buckets == old(buckets)[ip := Bucket(remaining, now)]
    {
      var b := BucketOf(ip, now);
      var elapsed := now - b.lastUpdate;
      var newTokens := Min(requestsPerMinute as real, b.tokens + elapsed * (requestsPerMinute as real / 60.0));
      assert newTokens == Refilled(b, now, requestsPerMinute);
      if newTokens >= 1.0 {
        buckets := buckets[ip := Bucket(newTokens - 1.0, now)];
        allowed, remaining := true, newTokens - 1.0;
      } else {
        buckets := buckets[ip := Bucket(newTokens, now)];
        allowed, remaining := false, newTokens;
      }
    }

    /**
     * The middleware: bypass when limiting is off or the path is exempt;
     * otherwise charge the client's bucket and either answer 429 or pass the
     * request on and add the limit headers to its response.
     */
    method Dispatch(request: Request, now: real, enabled: bool, next: Request -> Outcome<Response>)
      returns (result: Outcome<Response>)
      requires Valid() && ClockMonotone(ClientIp(request), now)
      modifies this
      ensures Valid()
      ensures !enabled || request.path in ExemptPaths ==> result == next(request) && buckets == old(buckets)
      ensures enabled && request.path !in ExemptPaths ==>
                var verdict := Check(old(BucketOf(ClientIp(request), now)), now, requestsPerMinute);
                && buckets == old(buckets)[ClientIp(request) := verdict.1]
                && (!verdict.0 && requestsPerMinute == 0 ==> result == Raise("float division by zero"))
                && (!verdict.0 && requestsPerMinute != 0 ==> result == Ok(TooManyRequests(requestsPerMinute)))
                && (verdict.0 ==> result == WithHeader(WithHeader(next(request),
                      "X-RateLimit-Limit", IntText(requestsPerMinute)),
                      "X-RateLimit-Remaining", IntText(Truncate(verdict.1.tokens))))
    {
      if !enabled || request.path in ExemptPaths {
        return next(request);
      }
      var ip := ClientIp(request);
      var allowed, remaining := CheckRateLimit(ip, now);
      if !allowed {
        if requestsPerMinute == 0 {
          return Raise("float division by zero");
        }
        return Ok(TooManyRequests(requestsPerMinute));
      }
      result := next(request);
      result := WithHeader(result, "X-RateLimit-Limit", IntText(requestsPerMinute));
      result := WithHeader(result, "X-RateLimit-Remaining", IntText(Truncate(remaining)));
    }
  }

  /** The remaining count an allowed client is told lies between 0 and `rpm - 1`. */
  lemma RemainingHeaderBounds(b: Bucket, now: real, rpm: nat)
    requires Bounded(b, rpm) && b.lastUpdate <= now
    ensures var r := Check(b, now, rpm);
            r.0 ==> 0 <= Truncate(r.1.tokens) <= rpm - 1
  {
  }
}
