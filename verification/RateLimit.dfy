/** The token bucket kept in Redis. Tokens are counted in sixtieths, so that one
    request costs 60, one second refills `rpm` and the cap is `60 * burst`: the
    arithmetic of the script is then exact over the integers. */
module RateLimit {

  const COST := 60
  const EXPIRY := 120

  datatype Limits = Limits(rpm: int, burst: int)

  /** The hash stored under an organisation's key. */
  datatype Bucket = Absent | Stored(tokens: int, last: int)

  /** The pair returned to the caller. */
  datatype Verdict = Verdict(allowed: bool, retryAfter: int)

  function Min(a: int, b: int): int {
    if a < b then a else b
  }

  function Max(a: int, b: int): int {
    if a < b then b else a
  }

  function Cap(limits: Limits): int {
    COST * limits.burst
  }

  /** `math.ceil(needed / rate)`: the least integer not below the quotient. */
  function CeilDiv(needed: int, rate: int): (q: int)
    requires rate != 0
    ensures rate > 0 ==> rate * (q - 1) < needed <= rate * q
    ensures rate < 0 ==> rate * (q - 1) > needed >= rate * q
  {
    if rate > 0 then (needed + rate - 1) / rate else -(needed / -rate)
  }

  /** What becomes of the infinite wait at a rate of zero, when the script's result is
      converted to a 64-bit integer: the least one, on the platforms Redis runs on. */
  const NO_WAIT := -0x8000_0000_0000_0000

  function Wait(needed: int, rate: int): int {
    if rate == 0 then NO_WAIT else CeilDiv(needed, rate)
  }

  /** The tokens seen by a call at `now`: a missing key starts full. */
  function Refilled(bucket: Bucket, limits: Limits, now: int): int {
    match bucket
    case Absent => Min(Cap(limits), Cap(limits))
    case Stored(tokens, last) => Min(Cap(limits), tokens + Max(0, now - last) * limits.rpm)
  }

  function Judge(tokens: int, limits: Limits): Verdict {
    if tokens >= COST then Verdict(true, 0)
    else Verdict(false, Wait(COST - tokens, limits.rpm))
  }

  function Spend(tokens: int): int {
    if tokens >= COST then tokens - COST else tokens
  }

  /** One run of the script. */
  function Called(bucket: Bucket, limits: Limits, now: int): (Bucket, Verdict) {
    var tokens := Refilled(bucket, limits, now);
    (Stored(Spend(tokens), now), Judge(tokens, limits))
  }

  /** Redis may have dropped the key 120 seconds after the last call, and must have
      dropped it after more; both clocks are read in whole seconds. */
  predicate MayBeDropped(bucket: Bucket, now: int) {
    bucket.Stored? && now - bucket.last >= EXPIRY
  }

  predicate MayBeKept(bucket: Bucket, now: int) {
    bucket.Stored? ==> now - bucket.last <= EXPIRY
  }

  /** The Redis server's view: one bucket for each organisation. */
  class RateLimiter {
    var buckets: map<string, Bucket>

    ghost function BucketOf(org: string): Bucket
      reads this
    {
      if org in buckets then buckets[org] else Absent
    }

    constructor ()
      ensures buckets == map[]
    {
      buckets := map[];
    }

    /** The key's time to live runs out. */
    method Drop(org: string)
      modifies this
      ensures BucketOf(org) == Absent
      ensures forall other | other != org :: BucketOf(other) == old(BucketOf(other))
    {
      buckets := map o | o in buckets && o != org :: buckets[o];
    }

    /** The script, statement by statement, for whatever limits are configured. */
    method CheckRateLimit(org: string, limits: Limits, now: int) returns (verdict: Verdict)
      modifies this
      ensures (BucketOf(org), verdict) == Called(old(BucketOf(org)), limits, now)
      ensures var was, full := old(BucketOf(org)), 60 * limits.burst;
              var earned := if was.Absent? then full
                            else was.tokens + if now > was.last
                                              then (now - was.last) * limits.rpm else 0;
              var tokens := if earned > full then full else earned;
              && verdict.allowed == (tokens >= 60)
              && BucketOf(org) == Stored(if verdict.allowed then tokens - 60 else tokens, now)
              && (verdict.allowed ==> verdict.retryAfter == 0)
              && (!verdict.allowed && limits.rpm > 0 ==>
                    limits.rpm * (verdict.retryAfter - 1) < 60 - tokens
                      <= limits.rpm * verdict.retryAfter)
      ensures forall other | other != org :: BucketOf(other) == old(BucketOf(other))
    {
      var tokens, last := Cap(limits), now;
      if org in buckets && buckets[org].Stored? {
        tokens, last := buckets[org].tokens, buckets[org].last;
      }
      var elapsed := Max(0, now - last);
      tokens := Min(Cap(limits), tokens + elapsed * limits.rpm);
      if tokens >= COST {
        tokens := tokens - COST;
        buckets := buckets[org := Stored(tokens, now)];
        verdict := Verdict(true, 0);
      } else {
        var needed := COST - tokens;
        var retryAfter := Wait(needed, limits.rpm);
        buckets := buckets[org := Stored(tokens, now)];
        verdict := Verdict(false, retryAfter);
      }
    }
  }
}
