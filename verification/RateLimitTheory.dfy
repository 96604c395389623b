/** What the rate limiter guarantees over whole runs with a clock that never goes
    back: it is a bucket ticked once a second, its bursts are bounded, and its
    Retry-After is exact. */
module RateLimitTheory {
  import opened RateLimit

  // -------------------------------------------------------------------- runs

  /** A call at a time; `dropped` says that Redis had dropped the key by then. */
  datatype Call = Call(now: int, dropped: bool)

  function Seen(bucket: Bucket, call: Call): Bucket {
    if call.dropped then Absent else bucket
  }

  function After(bucket: Bucket, limits: Limits, call: Call): Bucket
  {
    Called(Seen(bucket, call), limits, call.now).0
  }

  predicate LegalCall(bucket: Bucket, call: Call) {
    && (bucket.Stored? ==> bucket.last <= call.now)
    && if call.dropped then MayBeDropped(bucket, call.now) else MayBeKept(bucket, call.now)
  }

  /** Calls in time order, with the key dropped only when it may be. */
  predicate Legal(bucket: Bucket, limits: Limits, calls: seq<Call>)
    decreases |calls|
  {
    calls == [] ||
    (LegalCall(bucket, calls[0]) && Legal(After(bucket, limits, calls[0]), limits, calls[1..]))
  }

  /** Keys are dropped as soon as they may be, and never before. */
  predicate Promptly(bucket: Bucket, limits: Limits, calls: seq<Call>)
    decreases |calls|
  {
    calls == [] ||
    (calls[0].dropped == MayBeDropped(bucket, calls[0].now)
     && Promptly(After(bucket, limits, calls[0]), limits, calls[1..]))
  }

  function Verdicts(bucket: Bucket, limits: Limits, calls: seq<Call>): (verdicts: seq<Verdict>)
    ensures |verdicts| == |calls|
    decreases |calls|
  {
    if calls == [] then []
    else
      [Called(Seen(bucket, calls[0]), limits, calls[0].now).1]
      + Verdicts(After(bucket, limits, calls[0]), limits, calls[1..])
  }

  function Allowed(verdicts: seq<Verdict>): nat {
    if verdicts == [] then 0
    else (if verdicts[0].allowed then 1 else 0) + Allowed(verdicts[1..])
  }

  ghost predicate Sound(bucket: Bucket, limits: Limits) {
    bucket.Stored? ==> 0 <= bucket.tokens <= Cap(limits)
  }

  lemma {:induction false} AfterSound(bucket: Bucket, limits: Limits, call: Call)
    requires limits.rpm >= 1 && limits.burst >= 0 && Sound(bucket, limits)
    ensures Sound(After(bucket, limits, call), limits)
    ensures 0 <= Refilled(Seen(bucket, call), limits, call.now) <= Cap(limits)
  {
    if !call.dropped && bucket.Stored? {
      MulNonNegative(Max(0, call.now - bucket.last), limits.rpm);
    }
  }

  // -------------------------------------------------------- small arithmetic

  lemma {:induction false} MulNonNegative(a: int, b: int)
    requires a >= 0 && b >= 0
    ensures a * b >= 0
  {
  }

  lemma {:induction false} MulAtMost(a: int, b: int, c: int)
    requires a <= b && c >= 0
    ensures a * c <= b * c
  {
  }

  lemma {:induction false} MulAdd(a: int, b: int, c: int)
    ensures (a + b) * c == a * c + b * c
  {
  }

  /** The quotient rounded up is the only integer between these bounds. */
  lemma {:induction false} CeilUnique(needed: int, rate: int, q: int)
    requires rate >= 1
    requires rate * (q - 1) < needed <= rate * q
    ensures CeilDiv(needed, rate) == q
  {
    var p := CeilDiv(needed, rate);
    if p < q {
      MulAtMost(p, q - 1, rate);
    } else if q < p {
      MulAtMost(q, p - 1, rate);
    }
  }

  /** Enough seconds have passed just when they are at least the rounded quotient. */
  lemma {:induction false} CeilReached(needed: int, rate: int, e: int)
    requires rate >= 1
    ensures e * rate >= needed <==> e >= CeilDiv(needed, rate)
  {
    var q := CeilDiv(needed, rate);
    if e >= q {
      MulAtMost(q, e, rate);
    } else {
      MulAtMost(e, q - 1, rate);
    }
  }

  lemma {:induction false} CeilShift(needed: int, rate: int, e: int)
    requires rate >= 1
    ensures CeilDiv(needed - e * rate, rate) == CeilDiv(needed, rate) - e
  {
    var q := CeilDiv(needed, rate);
    assert rate * (q - e) == rate * q - e * rate;
    assert rate * (q - e - 1) == rate * (q - 1) - e * rate;
    CeilUnique(needed - e * rate, rate, q - e);
  }

  // ------------------------------------------------------- the ticked bucket

  function Tick(tokens: int, limits: Limits): int {
    Min(Cap(limits), tokens + limits.rpm)
  }

  function Ticks(tokens: int, limits: Limits, n: nat): int
    decreases n
  {
    if n == 0 then tokens else Ticks(Tick(tokens, limits), limits, n - 1)
  }

  lemma {:induction false} TicksAdd(tokens: int, limits: Limits, a: nat, b: nat)
    ensures Ticks(Ticks(tokens, limits, a), limits, b) == Ticks(tokens, limits, a + b)
    decreases a
  {
    if a > 0 {
      TicksAdd(Tick(tokens, limits), limits, a - 1, b);
    }
  }

  /** Refilling lazily is ticking, second by second. */
  lemma {:induction false} TicksAtOnce(tokens: int, limits: Limits, n: nat)
    requires limits.rpm >= 1 && tokens <= Cap(limits)
    ensures Ticks(tokens, limits, n) == Min(Cap(limits), tokens + n * limits.rpm)
    decreases n
  {
    if n > 0 {
      TicksAtOnce(Tick(tokens, limits), limits, n - 1);
      MulAdd(n - 1, 1, limits.rpm);
      MulNonNegative(n - 1, limits.rpm);
    }
  }

  lemma {:induction false} TicksFull(limits: Limits, n: nat)
    requires limits.rpm >= 1
    ensures Ticks(Cap(limits), limits, n) == Cap(limits)
  {
    TicksAtOnce(Cap(limits), limits, n);
    MulNonNegative(n, limits.rpm);
  }

  /** The specification: a bucket that is ticked every second and never expires. */
  function Ideal(tokens: int, time: int, limits: Limits, times: seq<int>): (verdicts: seq<Verdict>)
    requires Ordered(time, times)
    ensures |verdicts| == |times|
    decreases |times|
  {
    if times == [] then []
    else
      var level := Ticks(tokens, limits, times[0] - time);
      [Judge(level, limits)] + Ideal(Spend(level), times[0], limits, times[1..])
  }

  predicate Ordered(time: int, times: seq<int>)
    decreases |times|
  {
    times == [] || (time <= times[0] && Ordered(times[0], times[1..]))
  }

  function Times(calls: seq<Call>): seq<int> {
    seq(|calls|, i requires 0 <= i < |calls| => calls[i].now)
  }

  lemma {:induction false} TimesCons(calls: seq<Call>)
    requires calls != []
    ensures Times(calls)[1..] == Times(calls[1..]) && Times(calls)[0] == calls[0].now
  {
  }

  /** A bucket holds what the ticked one holds: an absent key stands for a full one. */
  ghost predicate Holds(bucket: Bucket, limits: Limits, tokens: int, time: int) {
    match bucket
    case Absent => tokens == Cap(limits)
    case Stored(t, last) => tokens == t && time == last && t <= Cap(limits)
  }

  lemma {:induction false} StepRefines(bucket: Bucket, limits: Limits, call: Call, tokens: int,
        time: int)
    requires limits.rpm >= 1 && 0 <= limits.burst <= 2 * limits.rpm
    requires Sound(bucket, limits) && LegalCall(bucket, call)
    requires Holds(bucket, limits, tokens, time) && time <= call.now
    ensures Refilled(Seen(bucket, call), limits, call.now)
         == Ticks(tokens, limits, call.now - time)
  {
    if bucket.Absent? {
      TicksFull(limits, call.now - time);
    } else {
      TicksAtOnce(tokens, limits, call.now - time);
      if call.dropped {
        MulAtMost(EXPIRY, call.now - time, limits.rpm);
      }
    }
  }

  /** The lazily refilled bucket, expiring keys and all, gives the verdicts of the
      bucket that is ticked every second and never expires. */
  lemma {:induction false} LazyRefinesTicked(bucket: Bucket, limits: Limits, calls: seq<Call>,
        tokens: int, time: int)
    requires limits.rpm >= 1 && 0 <= limits.burst <= 2 * limits.rpm
    requires Sound(bucket, limits) && Legal(bucket, limits, calls)
    requires Holds(bucket, limits, tokens, time)
    requires calls != [] ==> time <= calls[0].now
    ensures Ordered(time, Times(calls))
    ensures Verdicts(bucket, limits, calls) == Ideal(tokens, time, limits, Times(calls))
    decreases |calls|
  {
    if calls != [] {
      var call := calls[0];
      TimesCons(calls);
      StepRefines(bucket, limits, call, tokens, time);
      AfterSound(bucket, limits, call);
      var level := Ticks(tokens, limits, call.now - time);
      var next := After(bucket, limits, call);
      assert Holds(next, limits, Spend(level), call.now);
      LazyRefinesTicked(next, limits, calls[1..], Spend(level), call.now);
    }
  }

  // ------------------------------------------------ denied calls do not matter

  function Without<T>(s: seq<T>, k: nat): seq<T>
    requires k < |s|
  {
    s[..k] + s[k + 1..]
  }

  lemma {:induction false} WithoutTail<T>(s: seq<T>, k: nat)
    requires 0 < k < |s|
    ensures Without(s, k) == [s[0]] + Without(s[1..], k - 1)
  {
  }

  lemma {:induction false} IdealForgetsFirst(tokens: int, time: int, limits: Limits,
        times: seq<int>)
    requires times != [] && Ordered(time, times)
    requires !Judge(Ticks(tokens, limits, times[0] - time), limits).allowed
    ensures Ordered(time, times[1..])
    ensures Ideal(tokens, time, limits, times[1..])
         == Ideal(Ticks(tokens, limits, times[0] - time), times[0], limits, times[1..])
  {
    if |times| > 1 {
      TicksAdd(tokens, limits, times[0] - time, times[1] - times[0]);
    }
  }

  lemma {:induction false} IdealForgets(tokens: int, time: int, limits: Limits, times: seq<int>,
        k: nat)
    requires k < |times| && Ordered(time, times)
    requires !Ideal(tokens, time, limits, times)[k].allowed
    ensures Ordered(time, Without(times, k))
    ensures Ideal(tokens, time, limits, Without(times, k))
         == Without(Ideal(tokens, time, limits, times), k)
    decreases |times|
  {
    var level := Ticks(tokens, limits, times[0] - time);
    var rest := Ideal(Spend(level), times[0], limits, times[1..]);
    assert Ideal(tokens, time, limits, times) == [Judge(level, limits)] + rest;
    if k == 0 {
      assert Without(times, 0) == times[1..];
      assert Without([Judge(level, limits)] + rest, 0) == rest;
      IdealForgetsFirst(tokens, time, limits, times);
    } else {
      IdealForgets(Spend(level), times[0], limits, times[1..], k - 1);
      WithoutTail(times, k);
      WithoutTail([Judge(level, limits)] + rest, k);
      assert ([Judge(level, limits)] + rest)[1..] == rest;
      assert Without(times, k)[1..] == Without(times[1..], k - 1);
    }
  }

  /** Deleting a denied call from a run changes no other verdict, whichever keys
      Redis drops in the two runs. */
  lemma {:induction false} DeniedCallsDoNotMatter(limits: Limits, calls: seq<Call>, k: nat,
        others: seq<Call>)
    requires limits.rpm >= 1 && 0 <= limits.burst <= 2 * limits.rpm
    requires Legal(Absent, limits, calls) && Legal(Absent, limits, others)
    requires k < |calls| && !Verdicts(Absent, limits, calls)[k].allowed
    requires Times(others) == Without(Times(calls), k)
    ensures Verdicts(Absent, limits, others) == Without(Verdicts(Absent, limits, calls), k)
  {
    var start := calls[0].now;
    LazyRefinesTicked(Absent, limits, calls, Cap(limits), start);
    IdealForgets(Cap(limits), start, limits, Times(calls), k);
    if others != [] {
      assert Times(others)[0] == others[0].now;
    }
    LazyRefinesTicked(Absent, limits, others, Cap(limits), start);
  }

  // -------------------------------------------------------------- burst bound

  /** What one run may be allowed: the burst, and what was refilled meanwhile. */
  predicate WithinBudget(limits: Limits, calls: seq<Call>, verdicts: seq<Verdict>) {
    calls == [] ||
    COST * Allowed(verdicts)
      <= Cap(limits) + (calls[|calls| - 1].now - calls[0].now) * limits.rpm
  }

  lemma {:induction false} RefillBound(bucket: Bucket, limits: Limits, call: Call)
    requires limits.rpm >= 1 && 0 <= limits.burst <= 2 * limits.rpm
    requires Sound(bucket, limits) && bucket.Stored? && LegalCall(bucket, call)
    ensures Refilled(Seen(bucket, call), limits, call.now)
         <= bucket.tokens + (call.now - bucket.last) * limits.rpm
  {
    if call.dropped {
      MulAtMost(EXPIRY, call.now - bucket.last, limits.rpm);
    }
  }

  function FinalBucket(bucket: Bucket, limits: Limits, calls: seq<Call>): Bucket
    decreases |calls|
  {
    if calls == [] then bucket
    else FinalBucket(After(bucket, limits, calls[0]), limits, calls[1..])
  }

  lemma {:induction false} RunCons(bucket: Bucket, limits: Limits, call: Call, rest: seq<Call>)
    ensures var next := After(bucket, limits, call);
            var verdict := Called(Seen(bucket, call), limits, call.now).1;
            && (Legal(bucket, limits, [call] + rest)
                <==> LegalCall(bucket, call) && Legal(next, limits, rest))
            && (Promptly(bucket, limits, [call] + rest)
                <==> call.dropped == MayBeDropped(bucket, call.now) && Promptly(next, limits, rest))
            && Verdicts(bucket, limits, [call] + rest) == [verdict] + Verdicts(next, limits, rest)
            && Allowed(Verdicts(bucket, limits, [call] + rest))
               == Allowed(Verdicts(next, limits, rest)) + (if verdict.allowed then 1 else 0)
            && FinalBucket(bucket, limits, [call] + rest) == FinalBucket(next, limits, rest)
  {
    assert ([call] + rest)[1..] == rest;
    var verdicts := Verdicts(bucket, limits, [call] + rest);
    assert verdicts[1..] == Verdicts(After(bucket, limits, call), limits, rest);
  }

  /** One call: what it is allowed, and what it leaves. */
  lemma {:induction false} OneCall(bucket: Bucket, limits: Limits, calls: seq<Call>)
    requires limits.rpm >= 1 && limits.burst >= 0
    requires Sound(bucket, limits) && Legal(bucket, limits, calls) && calls != []
    ensures var tokens := Refilled(Seen(bucket, calls[0]), limits, calls[0].now);
            var next := After(bucket, limits, calls[0]);
            && next.Stored? && next.last == calls[0].now && next.tokens >= 0
            && Sound(next, limits) && Legal(next, limits, calls[1..])
            && COST * Allowed(Verdicts(bucket, limits, calls)) + next.tokens
               == COST * Allowed(Verdicts(next, limits, calls[1..])) + tokens
  {
    hide Wait, Refilled;
    assert calls == [calls[0]] + calls[1..];
    RunCons(bucket, limits, calls[0], calls[1..]);
    AfterSound(bucket, limits, calls[0]);
    hide Verdicts, Legal, Allowed;
  }

  lemma {:induction false} SpentAndLeft(bucket: Bucket, limits: Limits, calls: seq<Call>)
    requires limits.rpm >= 1 && 0 <= limits.burst <= 2 * limits.rpm
    requires Sound(bucket, limits) && Legal(bucket, limits, calls) && calls != []
    ensures COST * Allowed(Verdicts(bucket, limits, calls))
         <= Refilled(Seen(bucket, calls[0]), limits, calls[0].now)
            + (calls[|calls| - 1].now - calls[0].now) * limits.rpm
    decreases |calls|
  {
    var next, rest := After(bucket, limits, calls[0]), calls[1..];
    OneCall(bucket, limits, calls);
    if rest == [] {
      assert Allowed(Verdicts(next, limits, rest)) == 0;
    } else {
      assert LegalCall(next, rest[0]) && rest[|rest| - 1] == calls[|calls| - 1];
      hide Verdicts, Legal, Allowed, After, Refilled, Sound, LegalCall;
      SpentAndLeft(next, limits, rest);
      RefillBound(next, limits, rest[0]);
      MulAdd(rest[0].now - calls[0].now, calls[|calls| - 1].now - rest[0].now, limits.rpm);
    }
  }

  lemma {:induction false} RunSplits(bucket: Bucket, limits: Limits, a: seq<Call>, b: seq<Call>)
    ensures Verdicts(bucket, limits, a + b)
         == Verdicts(bucket, limits, a) + Verdicts(FinalBucket(bucket, limits, a), limits, b)
    ensures Promptly(bucket, limits, a + b)
       <==> Promptly(bucket, limits, a) && Promptly(FinalBucket(bucket, limits, a), limits, b)
    ensures Legal(bucket, limits, a + b)
       <==> Legal(bucket, limits, a) && Legal(FinalBucket(bucket, limits, a), limits, b)
    decreases |a|
  {
    if a == [] {
      assert a + b == b;
    } else {
      assert (a + b)[1..] == a[1..] + b;
      RunSplits(After(bucket, limits, a[0]), limits, a[1..], b);
    }
  }

  lemma {:induction false} FinalSound(bucket: Bucket, limits: Limits, calls: seq<Call>)
    requires limits.rpm >= 1 && limits.burst >= 0 && Sound(bucket, limits)
    ensures Sound(FinalBucket(bucket, limits, calls), limits)
    decreases |calls|
  {
    if calls != [] {
      AfterSound(bucket, limits, calls[0]);
      FinalSound(After(bucket, limits, calls[0]), limits, calls[1..]);
    }
  }

  lemma {:induction false} WindowOf(limits: Limits, before: seq<Call>, window: seq<Call>,
        rest: seq<Call>)
    requires limits.rpm >= 1 && limits.burst >= 0
    requires Legal(Absent, limits, before + (window + rest))
    ensures var bucket := FinalBucket(Absent, limits, before);
            && Sound(bucket, limits) && Legal(bucket, limits, window)
            && Verdicts(Absent, limits, before + (window + rest))[|before|..|before| + |window|]
            == Verdicts(bucket, limits, window)
  {
    RunSplits(Absent, limits, before, window + rest);
    RunSplits(FinalBucket(Absent, limits, before), limits, window, rest);
    FinalSound(Absent, limits, before);
  }

  lemma {:induction false} BudgetFromAnyBucket(bucket: Bucket, limits: Limits, calls: seq<Call>)
    requires limits.rpm >= 1 && 0 <= limits.burst <= 2 * limits.rpm
    requires Sound(bucket, limits) && Legal(bucket, limits, calls)
    ensures WithinBudget(limits, calls, Verdicts(bucket, limits, calls))
  {
    if calls != [] {
      SpentAndLeft(bucket, limits, calls);
      AfterSound(bucket, limits, calls[0]);
    }
  }

  /** In any window of any run, at most the burst and the refill are allowed. */
  lemma {:induction false} BurstBound(limits: Limits, calls: seq<Call>, i: nat, j: nat)
    requires limits.rpm >= 1 && 0 <= limits.burst <= 2 * limits.rpm
    requires Legal(Absent, limits, calls) && i <= j <= |calls|
    ensures WithinBudget(limits, calls[i..j], Verdicts(Absent, limits, calls)[i..j])
  {
    assert calls == calls[..i] + (calls[i..j] + calls[j..]);
    WindowOf(limits, calls[..i], calls[i..j], calls[j..]);
    BudgetFromAnyBucket(FinalBucket(Absent, limits, calls[..i]), limits, calls[i..j]);
  }

  // -------------------------------------------------------- Retry-After exact

  lemma {:induction false} JudgeRange(tokens: int, limits: Limits)
    requires limits.rpm >= 1 && 0 <= tokens < COST
    ensures 1 <= Judge(tokens, limits).retryAfter <= CeilDiv(COST, limits.rpm) <= COST
  {
    var needed := COST - tokens;
    CeilReached(needed, limits.rpm, 0);
    CeilReached(needed, limits.rpm, CeilDiv(COST, limits.rpm));
    MulAtMost(1, limits.rpm, COST);
    CeilReached(COST, limits.rpm, COST);
  }

  /** The next call after a denial: allowed just when the promised time has come,
      and if denied again it promises the same time. */
  lemma {:induction false} RetryStep(limits: Limits, tokens: int, last: int, call: Call)
    requires limits.rpm >= 1 && limits.burst >= 1 && 0 <= tokens < COST
    requires LegalCall(Stored(tokens, last), call)
    ensures var deadline := last + Judge(tokens, limits).retryAfter;
            var verdict := Called(Seen(Stored(tokens, last), call), limits, call.now).1;
            && (verdict.allowed <==> call.now >= deadline)
            && (!verdict.allowed ==> call.now + verdict.retryAfter == deadline)
  {
    var e := call.now - last;
    JudgeRange(tokens, limits);
    CeilReached(COST - tokens, limits.rpm, e);
    CeilShift(COST - tokens, limits.rpm, e);
  }

  lemma {:induction false} RetryAfterDenial(limits: Limits, tokens: int, last: int,
        calls: seq<Call>, k: nat)
    requires limits.rpm >= 1 && limits.burst >= 1 && 0 <= tokens < COST
    requires Legal(Stored(tokens, last), limits, calls) && k < |calls|
    requires forall i :: 0 <= i < k ==> !Verdicts(Stored(tokens, last), limits, calls)[i].allowed
    ensures var deadline := last + Judge(tokens, limits).retryAfter;
            var verdict := Verdicts(Stored(tokens, last), limits, calls)[k];
            && (verdict.allowed <==> calls[k].now >= deadline)
            && (!verdict.allowed ==> calls[k].now + verdict.retryAfter == deadline)
    decreases |calls|
  {
    var bucket := Stored(tokens, last);
    RetryStep(limits, tokens, last, calls[0]);
    if k > 0 {
      var verdicts := Verdicts(bucket, limits, calls);
      assert !verdicts[0].allowed;
      AfterSound(bucket, limits, calls[0]);
      var next := After(bucket, limits, calls[0]);
      assert forall i :: 0 <= i < k - 1 ==> Verdicts(next, limits, calls[1..])[i] == verdicts[i + 1];
      RetryAfterDenial(limits, next.tokens, next.last, calls[1..], k - 1);
    }
  }

  /** Retry-After is exact: after a denial, and while nothing is allowed, a call is
      denied before the promised time and allowed from then on; every denial in
      between promises that same time, at most a minute away. */
  lemma {:induction false} RetryAfterExact(bucket: Bucket, limits: Limits, calls: seq<Call>, k: nat)
    requires limits.rpm >= 1 && limits.burst >= 1
    requires Sound(bucket, limits) && Legal(bucket, limits, calls) && 0 < k < |calls|
    requires forall i :: 0 <= i < k ==> !Verdicts(bucket, limits, calls)[i].allowed
    ensures var verdicts := Verdicts(bucket, limits, calls);
            var deadline := calls[0].now + verdicts[0].retryAfter;
            && 1 <= verdicts[0].retryAfter <= CeilDiv(COST, limits.rpm) <= COST
            && (verdicts[k].allowed <==> calls[k].now >= deadline)
            && (!verdicts[k].allowed ==> calls[k].now + verdicts[k].retryAfter == deadline)
  {
    var verdicts := Verdicts(bucket, limits, calls);
    assert !verdicts[0].allowed;
    AfterSound(bucket, limits, calls[0]);
    var next := After(bucket, limits, calls[0]);
    JudgeRange(next.tokens, limits);
    assert forall i :: 0 <= i < k - 1 ==> Verdicts(next, limits, calls[1..])[i] == verdicts[i + 1];
    RetryAfterDenial(limits, next.tokens, next.last, calls[1..], k - 1);
  }
}
