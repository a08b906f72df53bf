/** Enforcement (backend/src/enforcement/limiter.js): the client signature, a temporary block
    list and a per-signature token bucket. */
module Limiter {
  import opened Common
  import opened Types
  import opened JsStrings

  const BlockTtlMs: int := 60 * 1000

  /** `getSignature(req)`: the first comma-separated entry of `x-forwarded-for` (or the socket
      address, or `unknown`), trimmed, then `|`, then the user agent (or `unknown`). Nothing
      is lowercased. */
  function Signature(forwardedFor: Option<string>, remoteAddress: Option<string>, userAgent: Option<string>): string
  {
    var ip := Trim(BeforeFirst(OrString(forwardedFor, OrString(remoteAddress, "unknown")), ','));
    ip + "|" + OrString(userAgent, "unknown")
  }

  /** The signature is the trimmed first forwarded address, a bar and the user agent, with the
      agent kept exactly as sent. */
  lemma SignatureShape(forwardedFor: string, userAgent: string)
    requires forwardedFor != [] && userAgent != []
    ensures Signature(Some(forwardedFor), None, Some(userAgent))
            == Trim(BeforeFirst(forwardedFor, ',')) + "|" + userAgent
  {
  }

  /** Signatures with different user agents differ, so agents that differ only in case are
      told apart. */
  lemma SignatureSeparatesAgents(forwardedFor: Option<string>, remoteAddress: Option<string>, ua1: string, ua2: string)
    requires ua1 != [] && ua2 != [] && ua1 != ua2
    ensures Signature(forwardedFor, remoteAddress, Some(ua1)) != Signature(forwardedFor, remoteAddress, Some(ua2))
  {
    var ip := Trim(BeforeFirst(OrString(forwardedFor, OrString(remoteAddress, "unknown")), ','));
    var s1 := Signature(forwardedFor, remoteAddress, Some(ua1));
    var s2 := Signature(forwardedFor, remoteAddress, Some(ua2));
    assert s1[|ip| + 1..] == ua1;
    assert s2[|ip| + 1..] == ua2;
  }

  datatype Bucket = Bucket(tokens: real, lastRefill: int)

  /** The limits the source reads from its configuration. */
  datatype LimiterConfig = LimiterConfig(baseRateLimitRps: real, baseBurst: real)

  /** What `enforce` returns. */
  datatype Enforcement = Enforcement(allowed: bool, signature: string, retryAfterSeconds: Option<int>, blocked: bool)

  /** The bucket and block tables. */
  datatype LimiterState = LimiterState(buckets: map<string, Bucket>, blockedSignatures: map<string, int>)

  /** `getBucket(signature, rate, burst)` at `now`: a new bucket starts full, then the bucket
      is refilled for the elapsed time, up to `burst`. */
  function Refilled(buckets: map<string, Bucket>, signature: string, rate: real, burst: real, now: int): Bucket
  {
    var b := if signature in buckets then buckets[signature] else Bucket(burst, now);
    Bucket(MinReal(burst, b.tokens + (now - b.lastRefill) as real / 1000.0 * rate), now)
  }

  /** `decision.rateLimitRps || config.baseRateLimitRps`. */
  function RateOf(rateLimitRps: Option<int>, config: LimiterConfig): real
  {
    if rateLimitRps.None? || rateLimitRps.value == 0 then config.baseRateLimitRps else rateLimitRps.value as real
  }

  /** Whether the signature is blocked at `now` (`blockedUntil && blockedUntil > now`). */
  predicate BlockedAt(s: LimiterState, signature: string, now: int)
  {
    signature in s.blockedSignatures && s.blockedSignatures[signature] != 0 && s.blockedSignatures[signature] > now
  }

  /** `enforce(req, decision, config)` at `now` for the request's signature. */
  function Enforce(s: LimiterState, signature: string, action: Action, rateLimitRps: Option<int>,
                   config: LimiterConfig, now: int): (LimiterState, Enforcement)
  {
    if BlockedAt(s, signature, now) then
      (s, Enforcement(false, signature, Some(CeilSeconds(s.blockedSignatures[signature] - now)), true))
    else if action == Block then
      (s.(blockedSignatures := s.blockedSignatures[signature := now + BlockTtlMs]),
       Enforcement(false, signature, Some(CeilSeconds(BlockTtlMs)), true))
    else if action == Allow then
      (s, Enforcement(true, signature, None, false))
    else
      var b := Refilled(s.buckets, signature, RateOf(rateLimitRps, config), config.baseBurst, now);
      if b.tokens >= 1.0 then
        (s.(buckets := s.buckets[signature := b.(tokens := b.tokens - 1.0)]), Enforcement(true, signature, None, false))
      else
        (s.(buckets := s.buckets[signature := b]), Enforcement(false, signature, Some(1), false))
  }

  /** A signature that is still blocked is turned away first, with the remaining seconds
      rounded up, and nothing changes. */
  lemma BlockedFirst(s: LimiterState, signature: string, action: Action, rateLimitRps: Option<int>,
                     config: LimiterConfig, now: int)
    requires BlockedAt(s, signature, now)
    ensures var (s2, r) := Enforce(s, signature, action, rateLimitRps, config, now);
            var left := s.blockedSignatures[signature] - now;
            && s2 == s && !r.allowed && r.blocked && r.retryAfterSeconds.Some?
            && (r.retryAfterSeconds.value - 1) * 1000 < left <= r.retryAfterSeconds.value * 1000
  {
    var c := CeilSeconds(s.blockedSignatures[signature] - now);
    assert Enforce(s, signature, action, rateLimitRps, config, now).1.retryAfterSeconds == Some(c);
  }

  /** A block decision blocks the signature for 60 s and asks the client to retry in 60 s;
      the buckets are not touched. */
  lemma BlockDecisionBlocks(s: LimiterState, signature: string, rateLimitRps: Option<int>,
                            config: LimiterConfig, now: int)
    requires !BlockedAt(s, signature, now) && now >= 0
    ensures var (s2, r) := Enforce(s, signature, Block, rateLimitRps, config, now);
            && s2.blockedSignatures == s.blockedSignatures[signature := now + 60000] && s2.buckets == s.buckets
            && r == Enforcement(false, signature, Some(60), true)
            && BlockedAt(s2, signature, now) && BlockedAt(s2, signature, now + 59999)
            && !BlockedAt(s2, signature, now + 60000)
  {
  }

  /** An allow decision for an unblocked signature passes without creating or changing a
      bucket. */
  lemma AllowPassesThrough(s: LimiterState, signature: string, rateLimitRps: Option<int>,
                           config: LimiterConfig, now: int)
    requires !BlockedAt(s, signature, now)
    ensures Enforce(s, signature, Allow, rateLimitRps, config, now) == (s, Enforcement(true, signature, None, false))
  {
  }

  /** A new bucket starts full: its first refill at the instant it is created holds `burst`. */
  lemma NewBucketFull(buckets: map<string, Bucket>, signature: string, rate: real, burst: real, now: int)
    requires signature !in buckets
    ensures Refilled(buckets, signature, rate, burst, now) == Bucket(burst, now)
  {
  }

  /** The token-bucket step: with at least one token after the refill, exactly one is spent
      and the request passes; otherwise it is turned away with a retry of 1 s and the refilled
      tokens are kept. The rate is the decision's when it is non-zero, else the base rate. */
  lemma BucketStep(s: LimiterState, signature: string, action: Action, rateLimitRps: Option<int>,
                   config: LimiterConfig, now: int)
    requires !BlockedAt(s, signature, now) && action != Block && action != Allow
    ensures var b := Refilled(s.buckets, signature, RateOf(rateLimitRps, config), config.baseBurst, now);
            var (s2, r) := Enforce(s, signature, action, rateLimitRps, config, now);
            && s2.blockedSignatures == s.blockedSignatures
            && (b.tokens >= 1.0 ==> r.allowed && s2.buckets == s.buckets[signature := Bucket(b.tokens - 1.0, now)])
            && (b.tokens < 1.0 ==> !r.allowed && r.retryAfterSeconds == Some(1) && !r.blocked
                                   && s2.buckets == s.buckets[signature := b])
    ensures RateOf(rateLimitRps, config)
            == if rateLimitRps.Some? && rateLimitRps.value != 0 then rateLimitRps.value as real
               else config.baseRateLimitRps
  {
  }

  /** Every bucket holds between 0 and `burst` tokens, and was last refilled no later than `now`. */
  ghost predicate BucketsBounded(s: LimiterState, burst: real, now: int)
  {
    forall k :: k in s.buckets ==> 0.0 <= s.buckets[k].tokens <= burst && s.buckets[k].lastRefill <= now
  }

  /** A refill at a later instant with a non-negative rate keeps the tokens in [0, burst]. */
  lemma RefillBounded(buckets: map<string, Bucket>, signature: string, rate: real, burst: real, now: int)
    requires rate >= 0.0 && burst >= 0.0
    requires signature in buckets ==> 0.0 <= buckets[signature].tokens <= burst && buckets[signature].lastRefill <= now
    ensures var b := Refilled(buckets, signature, rate, burst, now);
            0.0 <= b.tokens <= burst && b.lastRefill == now
  {
    var b := if signature in buckets then buckets[signature] else Bucket(burst, now);
    var elapsed := (now - b.lastRefill) as real / 1000.0;
    assert elapsed >= 0.0;
    ProductNonNegative(elapsed, rate);
  }

  /** Enforcement keeps every bucket within [0, burst] as long as the clock does not go back
      and the rates are not negative. */
  lemma EnforceKeepsBucketsBounded(s: LimiterState, signature: string, action: Action, rateLimitRps: Option<int>,
                                   config: LimiterConfig, now: int, later: int)
    requires config.baseBurst >= 0.0 && RateOf(rateLimitRps, config) >= 0.0
    requires BucketsBounded(s, config.baseBurst, now) && now <= later
    ensures BucketsBounded(Enforce(s, signature, action, rateLimitRps, config, now).0, config.baseBurst, later)
  {
    RefillBounded(s.buckets, signature, RateOf(rateLimitRps, config), config.baseBurst, now);
  }

  /** The `buckets` and `blockedSignatures` maps. */
  class RateLimiter {
    var buckets: map<string, Bucket>
    var blockedSignatures: map<string, int>

    function State(): LimiterState
      reads this
    {
      LimiterState(buckets, blockedSignatures)
    }

    constructor ()
      ensures State() == LimiterState(map[], map[])
    {
      buckets := map[];
      blockedSignatures := map[];
    }

    /** `getBucket(signature, ratePerSecond, burst)` at `now`. */
    method GetBucket(signature: string, rate: real, burst: real, now: int) returns (b: Bucket)
      modifies this
      ensures b == Refilled(old(buckets), signature, rate, burst, now)
      ensures buckets == old(buckets)[signature := b] && blockedSignatures == old(blockedSignatures)
    {
      if signature !in buckets {
        buckets := buckets[signature := Bucket(burst, now)];
      }
      var bucket := buckets[signature];
      var elapsed := (now - bucket.lastRefill) as real / 1000.0;
      b := Bucket(MinReal(burst, bucket.tokens + elapsed * rate), now);
      buckets := buckets[signature := b];
    }

    /** `enforce(req, decision, config)` at `now`, for the signature of the request. */
    method EnforceAt(signature: string, action: Action, rateLimitRps: Option<int>, config: LimiterConfig, now: int)
      returns (r: Enforcement)
      modifies this
      ensures (State(), r) == Enforce(old(State()), signature, action, rateLimitRps, config, now)
    {
      if signature in blockedSignatures {
        var blockedUntil := blockedSignatures[signature];
        if blockedUntil != 0 && blockedUntil > now {
          return Enforcement(false, signature, Some(CeilSeconds(blockedUntil - now)), true);
        }
      }
      if action == Block {
        blockedSignatures := blockedSignatures[signature := now + BlockTtlMs];
        return Enforcement(false, signature, Some(CeilSeconds(BlockTtlMs)), true);
      }
      if action == Allow {
        return Enforcement(true, signature, None, false);
      }
      var rate := if rateLimitRps.None? || rateLimitRps.value == 0 then config.baseRateLimitRps
                  else rateLimitRps.value as real;
      var bucket := GetBucket(signature, rate, config.baseBurst, now);
      assert bucket == Refilled(old(buckets), signature, RateOf(rateLimitRps, config), config.baseBurst, now);
      if bucket.tokens >= 1.0 {
        buckets := buckets[signature := bucket.(tokens := bucket.tokens - 1.0)];
        assert buckets == old(buckets)[signature := bucket.(tokens := bucket.tokens - 1.0)];
        return Enforcement(true, signature, None, false);
      }
      r := Enforcement(false, signature, Some(1), false);
    }
  }
}
