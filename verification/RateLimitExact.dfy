/** For which limits the promises of the rate limiter hold: nothing in the script or its
    callers bounds the two integers, so each condition is exact over all of them. */
module RateLimitExact {
  import opened RateLimit
  import opened RateLimitTheory

  // ---------------------------------------------------- many calls at one time

  function Again(now: int, n: nat): seq<Call> {
    if n == 0 then [] else [Call(now, false)] + Again(now, n - 1)
  }

  lemma {:induction false} AgainRun(limits: Limits, now: int, tokens: int, n: nat)
    requires tokens <= Cap(limits)
    ensures var bucket := Stored(tokens, now);
            && Legal(bucket, limits, Again(now, n)) && Promptly(bucket, limits, Again(now, n))
            && |Again(now, n)| == n
            && (forall j :: 0 <= j < n ==>
                  && Again(now, n)[j] == Call(now, false)
                  && (Verdicts(bucket, limits, Again(now, n))[j].allowed
                      <==> COST * (j + 1) <= tokens))
            && (COST * n <= tokens ==>
                  && Allowed(Verdicts(bucket, limits, Again(now, n))) == n
                  && FinalBucket(bucket, limits, Again(now, n)) == Stored(tokens - COST * n, now))
  {
    if n > 0 {
      hide Wait;
      var call := Call(now, false);
      assert After(Stored(tokens, now), limits, call) == Stored(Spend(tokens), now);
      RunCons(Stored(tokens, now), limits, call, Again(now, n - 1));
      AgainRun(limits, now, Spend(tokens), n - 1);
      hide Legal, Promptly, Verdicts, Allowed, FinalBucket;
    }
  }

  /** A number of calls at the time of the first. */
  function Volley(call: Call, n: nat): seq<Call>
    requires n >= 1
  {
    [call] + Again(call.now, n - 1)
  }

  /** As many are allowed as there are tokens for. */
  lemma {:induction false} VolleyRun(bucket: Bucket, limits: Limits, call: Call, n: nat)
    requires n >= 1 && LegalCall(bucket, call)
    ensures var tokens := Refilled(Seen(bucket, call), limits, call.now);
            && Legal(bucket, limits, Volley(call, n))
            && (call.dropped == MayBeDropped(bucket, call.now) ==>
                  Promptly(bucket, limits, Volley(call, n)))
            && |Volley(call, n)| == n
            && (forall j :: 0 <= j < n ==>
                  && Volley(call, n)[j].now == call.now
                  && (Verdicts(bucket, limits, Volley(call, n))[j].allowed
                      <==> COST * (j + 1) <= tokens))
            && (COST * n <= tokens ==>
                  && Allowed(Verdicts(bucket, limits, Volley(call, n))) == n
                  && FinalBucket(bucket, limits, Volley(call, n))
                     == Stored(tokens - COST * n, call.now))
  {
    hide Wait;
    var tokens := Refilled(Seen(bucket, call), limits, call.now);
    assert tokens <= Cap(limits);
    assert After(bucket, limits, call) == Stored(Spend(tokens), call.now);
    RunCons(bucket, limits, call, Again(call.now, n - 1));
    AgainRun(limits, call.now, Spend(tokens), n - 1);
    hide Legal, Promptly, Verdicts, Allowed, FinalBucket, Again, Refilled, LegalCall;
  }

  // ---------------------------------------------------- limits that allow nothing

  /** Without a burst nothing is ever allowed, from any bucket and at any rate. */
  lemma {:induction false} NothingAllowed(bucket: Bucket, limits: Limits, calls: seq<Call>, k: nat)
    requires limits.burst <= 0 && k < |calls|
    ensures !Verdicts(bucket, limits, calls)[k].allowed
    decreases |calls|
  {
    if k > 0 {
      NothingAllowed(After(bucket, limits, calls[0]), limits, calls[1..], k - 1);
    }
  }

  lemma {:induction false} NoneCounted(verdicts: seq<Verdict>)
    requires forall i :: 0 <= i < |verdicts| ==> !verdicts[i].allowed
    ensures Allowed(verdicts) == 0
  {
    if verdicts != [] {
      NoneCounted(verdicts[1..]);
    }
  }

  lemma {:induction false} NothingCounted(bucket: Bucket, limits: Limits, calls: seq<Call>)
    requires limits.burst <= 0
    ensures Allowed(Verdicts(bucket, limits, calls)) == 0
  {
    forall k | 0 <= k < |calls| ensures !Verdicts(bucket, limits, calls)[k].allowed {
      NothingAllowed(bucket, limits, calls, k);
    }
    NoneCounted(Verdicts(bucket, limits, calls));
  }

  /** And if the rate is not negative either, every call gets the same answer. */
  lemma {:induction false} SameAnswer(bucket: Bucket, limits: Limits, calls: seq<Call>)
    requires limits.rpm >= 0 && limits.burst <= 0 && Legal(bucket, limits, calls)
    requires bucket.Stored? ==> bucket.tokens == Cap(limits)
    ensures forall k :: 0 <= k < |calls| ==>
              Verdicts(bucket, limits, calls)[k] == Judge(Cap(limits), limits)
    decreases |calls|
  {
    if calls != [] {
      hide Wait;
      var next := After(bucket, limits, calls[0]);
      if bucket.Stored? {
        MulNonNegative(Max(0, calls[0].now - bucket.last), limits.rpm);
      }
      assert next == Stored(Cap(limits), calls[0].now);
      SameAnswer(next, limits, calls[1..]);
    }
  }

  // -------------------------------------------------------------- burst bound

  lemma {:induction false} AllowedAppend(a: seq<Verdict>, b: seq<Verdict>)
    ensures Allowed(a + b) == Allowed(a) + Allowed(b)
  {
    if a == [] {
      assert a + b == b;
    } else {
      assert (a + b)[1..] == a[1..] + b;
      AllowedAppend(a[1..], b);
    }
  }

  /** A burst, two minutes of silence, and another burst. */
  function TwoBursts(limits: Limits): seq<Call>
    requires limits.burst >= 1
  {
    Volley(Call(0, false), limits.burst) + Volley(Call(EXPIRY, true), limits.burst)
  }

  lemma {:induction false} TwoBurstsExceed(limits: Limits)
    requires limits.burst >= 1 && limits.burst > 2 * limits.rpm
    ensures Legal(Absent, limits, TwoBursts(limits))
    ensures !WithinBudget(limits, TwoBursts(limits), Verdicts(Absent, limits, TwoBursts(limits)))
  {
    var first, second := Volley(Call(0, false), limits.burst), Volley(Call(EXPIRY, true), limits.burst);
    VolleyRun(Absent, limits, Call(0, false), limits.burst);
    VolleyRun(Stored(0, 0), limits, Call(EXPIRY, true), limits.burst);
    RunSplits(Absent, limits, first, second);
    AllowedAppend(Verdicts(Absent, limits, first), Verdicts(Stored(0, 0), limits, second));
    hide Legal, Verdicts, Allowed, FinalBucket, Again, Volley;
  }

  lemma {:induction false} TinyBurstExceeds(limits: Limits)
    requires limits.burst < 0 || (limits.burst == 0 && limits.rpm < 0)
    ensures exists calls :: Legal(Absent, limits, calls)
                            && !WithinBudget(limits, calls, Verdicts(Absent, limits, calls))
  {
    var one, two := [Call(0, false)], [Call(0, false), Call(1, false)];
    assert one[1..] == [] && two[1..] == [Call(1, false)] && two[1..][1..] == [];
    NothingCounted(Absent, limits, one);
    NothingCounted(Absent, limits, two);
    assert Legal(Absent, limits, one) && Legal(Absent, limits, two);
    if limits.burst < 0 {
      assert !WithinBudget(limits, one, Verdicts(Absent, limits, one));
    } else {
      assert !WithinBudget(limits, two, Verdicts(Absent, limits, two));
    }
  }

  ghost predicate BurstBounded(limits: Limits) {
    forall calls | Legal(Absent, limits, calls) ::
      WithinBudget(limits, calls, Verdicts(Absent, limits, calls))
  }

  /** Runs stay within the budget exactly when the burst is not negative and refills
      before the key expires. */
  lemma {:induction false} BurstBoundExactly(limits: Limits)
    ensures BurstBounded(limits) <==> 0 <= limits.burst <= 2 * limits.rpm
  {
    if 0 <= limits.burst <= 2 * limits.rpm {
      forall calls | Legal(Absent, limits, calls)
        ensures WithinBudget(limits, calls, Verdicts(Absent, limits, calls))
      {
        if limits.rpm >= 1 {
          BurstBound(limits, calls, 0, |calls|);
          var verdicts := Verdicts(Absent, limits, calls);
          assert calls[0..|calls|] == calls && verdicts[0..|calls|] == verdicts;
        } else {
          NothingCounted(Absent, limits, calls);
        }
      }
    } else if limits.burst >= 1 {
      TwoBurstsExceed(limits);
    } else {
      TinyBurstExceeds(limits);
    }
  }

  // -------------------------------------------------------------- Retry-After

  /** After each denial, and while nothing is allowed, a later call is allowed just when
      the promised time has come. */
  ghost predicate PromisesKept(limits: Limits) {
    forall calls, i, k | Legal(Absent, limits, calls) && DeniedFrom(limits, calls, i, k) ::
      PromiseKept(limits, calls, i, k)
  }

  ghost predicate DeniedFrom(limits: Limits, calls: seq<Call>, i: int, k: int) {
    && 0 <= i < k < |calls|
    && forall j :: i <= j < k ==> !Verdicts(Absent, limits, calls)[j].allowed
  }

  ghost predicate PromiseKept(limits: Limits, calls: seq<Call>, i: int, k: int)
    requires 0 <= i < k < |calls|
  {
    var verdicts := Verdicts(Absent, limits, calls);
    verdicts[k].allowed <==> calls[k].now >= calls[i].now + verdicts[i].retryAfter
  }

  lemma {:induction false} PromiseIsKept(limits: Limits, calls: seq<Call>, i: nat, k: nat)
    requires limits.rpm >= 1 && limits.burst >= 1
    requires Legal(Absent, limits, calls) && DeniedFrom(limits, calls, i, k)
    ensures PromiseKept(limits, calls, i, k)
  {
    hide Legal, Verdicts, Wait;
    var before, window := calls[..i], calls[i..];
    assert calls == before + (window + []);
    WindowOf(limits, before, window, []);
    var verdicts := Verdicts(Absent, limits, calls);
    assert verdicts[i..i + |window|] == verdicts[i..];
    assert forall j :: 0 <= j < k - i ==> verdicts[i..][j] == verdicts[i + j];
    RetryAfterExact(FinalBucket(Absent, limits, before), limits, window, k - i);
  }

  /** A wait that was promised comes from some number of tokens. */
  lemma {:induction false} VerdictIsJudged(bucket: Bucket, limits: Limits, calls: seq<Call>, k: nat)
        returns (tokens: int)
    requires k < |calls|
    ensures Verdicts(bucket, limits, calls)[k] == Judge(tokens, limits)
    decreases |calls|
  {
    if k == 0 {
      tokens := Refilled(Seen(bucket, calls[0]), limits, calls[0].now);
    } else {
      tokens := VerdictIsJudged(After(bucket, limits, calls[0]), limits, calls[1..], k - 1);
    }
  }

  lemma {:induction false} MulNegative(a: int, b: int)
    requires a >= 0 && b <= 0
    ensures a * b <= 0
  {
  }

  lemma {:induction false} WaitNegative(needed: int, rate: int)
    requires needed > 0 && rate <= 0
    ensures Wait(needed, rate) <= 0
  {
    if rate < 0 {
      var q := CeilDiv(needed, rate);
      if q >= 1 {
        MulNegative(q - 1, rate);
      }
    }
  }

  /** Without refill the calls after the burst are told to come back at once, and are
      denied when they do. */
  lemma {:induction false} NoRefillBreaks(limits: Limits)
    requires limits.rpm <= 0
    ensures !PromisesKept(limits)
  {
    var m := Max(0, limits.burst);
    var calls := Volley(Call(0, false), m + 2);
    VolleyRun(Absent, limits, Call(0, false), m + 2);
    var tokens := VerdictIsJudged(Absent, limits, calls, m);
    WaitNegative(COST - tokens, limits.rpm);
    hide Volley, Legal, Verdicts, Wait;
    assert !Verdicts(Absent, limits, calls)[m].allowed;
    assert !Verdicts(Absent, limits, calls)[m + 1].allowed;
    assert DeniedFrom(limits, calls, m, m + 1);
    assert !PromiseKept(limits, calls, m, m + 1);
  }

  /** Without a burst a call at the promised time is denied like all the others. */
  lemma {:induction false} NoBurstBreaks(limits: Limits)
    requires limits.rpm >= 1 && limits.burst <= 0
    ensures !PromisesKept(limits)
  {
    var wait := Judge(Cap(limits), limits).retryAfter;
    CeilReached(COST - Cap(limits), limits.rpm, 0);
    var calls := [Call(0, false), Call(wait, wait > EXPIRY)];
    assert calls[1..] == [Call(wait, wait > EXPIRY)] && calls[1..][1..] == [];
    NothingAllowed(Absent, limits, calls, 0);
    NothingAllowed(Absent, limits, calls, 1);
    assert Legal(Absent, limits, calls);
    assert DeniedFrom(limits, calls, 0, 1);
    assert !PromiseKept(limits, calls, 0, 1);
  }

  /** Retry-After keeps its promise exactly when both limits are positive. */
  lemma {:induction false} RetryAfterExactly(limits: Limits)
    ensures PromisesKept(limits) <==> limits.rpm >= 1 && limits.burst >= 1
  {
    hide Legal, Verdicts, PromiseKept;
    if limits.rpm >= 1 && limits.burst >= 1 {
      forall calls, i, k | Legal(Absent, limits, calls) && DeniedFrom(limits, calls, i, k)
        ensures PromiseKept(limits, calls, i, k)
      {
        PromiseIsKept(limits, calls, i, k);
      }
    } else if limits.rpm <= 0 {
      NoRefillBreaks(limits);
    } else {
      NoBurstBreaks(limits);
    }
  }

  // ------------------------------------------------ when denied calls do matter

  /** Run `others` is run `calls` without its call `k`, which was denied; the keys that
      Redis drops may differ. */
  ghost predicate Deletes(limits: Limits, calls: seq<Call>, k: int, others: seq<Call>) {
    && Legal(Absent, limits, calls) && Legal(Absent, limits, others)
    && 0 <= k < |calls| && !Verdicts(Absent, limits, calls)[k].allowed
    && Times(others) == Without(Times(calls), k)
  }

  ghost predicate Unmoved(limits: Limits, calls: seq<Call>, k: int, others: seq<Call>)
    requires 0 <= k < |calls|
  {
    Verdicts(Absent, limits, others) == Without(Verdicts(Absent, limits, calls), k)
  }

  /** Deleting a denied call changes no other verdict, whichever keys are dropped. */
  ghost predicate DeniedForgotten(limits: Limits) {
    forall calls, k, others | Deletes(limits, calls, k, others) :: Unmoved(limits, calls, k, others)
  }

  /** The same when keys are dropped as soon as they may be: then the times alone decide,
      and a denied call can matter only by renewing the key. */
  ghost predicate DeniedForgottenPromptly(limits: Limits) {
    forall calls, k, others | Deletes(limits, calls, k, others)
                              && Promptly(Absent, limits, calls)
                              && Promptly(Absent, limits, others) ::
      Unmoved(limits, calls, k, others)
  }

  lemma {:induction false} SmallBurstForgets(limits: Limits, calls: seq<Call>, k: nat,
        others: seq<Call>)
    requires limits.rpm >= 0 && limits.burst <= 2 * limits.rpm
    requires Deletes(limits, calls, k, others)
    ensures Unmoved(limits, calls, k, others)
  {
    hide Legal, Verdicts, Judge;
    if limits.burst <= 0 {
      SameAnswer(Absent, limits, calls);
      SameAnswer(Absent, limits, others);
      assert |others| == |Times(others)| == |calls| - 1;
    } else {
      DeniedCallsDoNotMatter(limits, calls, k, others);
    }
  }

  /** The burst, one more call that is denied, and two minutes later as many calls as
      were refilled and one more. */
  function Renewing(limits: Limits, e: nat): seq<Call>
    requires limits.burst >= 1
  {
    Volley(Call(0, false), limits.burst)
    + ([Call(e, false)] + Volley(Call(EXPIRY, false), Max(0, 2 * limits.rpm) + 1))
  }

  function Lapsing(limits: Limits): seq<Call>
    requires limits.burst >= 1
  {
    Volley(Call(0, false), limits.burst)
    + Volley(Call(EXPIRY, true), Max(0, 2 * limits.rpm) + 1)
  }

  /** With the denied call the key was renewed, and the last call is denied. */
  lemma {:induction false} RenewingRun(limits: Limits, e: nat)
    requires limits.burst >= 1 && limits.burst > 2 * limits.rpm
    requires e <= 1 && (e == 1 ==> limits.rpm < COST)
    ensures var calls := Renewing(limits, e);
            var n := limits.burst + 1 + Max(0, 2 * limits.rpm);
            && Legal(Absent, limits, calls) && |calls| == n + 1
            && (e == 1 ==> Promptly(Absent, limits, calls))
            && !Verdicts(Absent, limits, calls)[limits.burst].allowed
            && !Verdicts(Absent, limits, calls)[n].allowed
            && forall j :: 0 <= j <= n ==>
                 calls[j].now == if j < limits.burst then 0 else if j == limits.burst then e
                                 else EXPIRY
  {
    var tail := [Call(e, false)] + Volley(Call(EXPIRY, false), Max(0, 2 * limits.rpm) + 1);
    VolleyRun(Absent, limits, Call(0, false), limits.burst);
    RenewingTail(limits, e);
    RunSplits(Absent, limits, Volley(Call(0, false), limits.burst), tail);
    hide Legal, Promptly, Verdicts, FinalBucket, Volley;
  }

  lemma {:induction false} RenewingTail(limits: Limits, e: nat)
    requires limits.burst >= 1 && limits.burst > 2 * limits.rpm
    requires e <= 1 && (e == 1 ==> limits.rpm < COST)
    ensures var m := Max(0, 2 * limits.rpm);
            var tail := [Call(e, false)] + Volley(Call(EXPIRY, false), m + 1);
            && Legal(Stored(0, 0), limits, tail) && |tail| == m + 2
            && (e == 1 ==> Promptly(Stored(0, 0), limits, tail))
            && !Verdicts(Stored(0, 0), limits, tail)[0].allowed
            && !Verdicts(Stored(0, 0), limits, tail)[m + 1].allowed
            && forall j :: 0 <= j < m + 2 ==> tail[j].now == if j == 0 then e else EXPIRY
  {
    var m := Max(0, 2 * limits.rpm);
    var left := Stored(e * limits.rpm, e);
    DeniedAt(limits, e);
    hide Legal, Promptly, Verdicts, FinalBucket, Volley, After, Called, Wait, Refilled;
    VolleyRun(left, limits, Call(EXPIRY, false), m + 1);
    RunCons(Stored(0, 0), limits, Call(e, false), Volley(Call(EXPIRY, false), m + 1));
  }

  /** An empty bucket, a second later at most, and at the end of its two minutes. */
  lemma {:induction false} DeniedAt(limits: Limits, e: nat)
    requires limits.burst >= 1 && limits.burst > 2 * limits.rpm
    requires e <= 1 && (e == 1 ==> limits.rpm < COST)
    ensures After(Stored(0, 0), limits, Call(e, false)) == Stored(e * limits.rpm, e)
    ensures !Called(Stored(0, 0), limits, e).1.allowed
    ensures Refilled(Stored(e * limits.rpm, e), limits, EXPIRY) == EXPIRY * limits.rpm
    ensures LegalCall(Stored(0, 0), Call(e, false))
    ensures LegalCall(Stored(e * limits.rpm, e), Call(EXPIRY, false))
  {
    hide Wait;
  }

  /** Without it the key was dropped, and the last call is allowed. */
  lemma {:induction false} LapsingRun(limits: Limits)
    requires limits.burst >= 1 && limits.burst > 2 * limits.rpm
    ensures var others := Lapsing(limits);
            var n := limits.burst + Max(0, 2 * limits.rpm);
            && Legal(Absent, limits, others) && |others| == n + 1
            && Promptly(Absent, limits, others)
            && Verdicts(Absent, limits, others)[n].allowed
            && forall j :: 0 <= j <= n ==>
                 others[j].now == if j < limits.burst then 0 else EXPIRY
  {
    var m := Max(0, 2 * limits.rpm);
    var first, last := Volley(Call(0, false), limits.burst), Volley(Call(EXPIRY, true), m + 1);
    VolleyRun(Absent, limits, Call(0, false), limits.burst);
    VolleyRun(Stored(0, 0), limits, Call(EXPIRY, true), m + 1);
    RunSplits(Absent, limits, first, last);
    hide Legal, Promptly, Verdicts, FinalBucket, Volley;
  }

  lemma {:induction false} RenewalMatters(limits: Limits, e: nat)
    requires limits.burst >= 1 && limits.burst > 2 * limits.rpm
    requires e <= 1 && (e == 1 ==> limits.rpm < COST)
    ensures Deletes(limits, Renewing(limits, e), limits.burst, Lapsing(limits))
    ensures !Unmoved(limits, Renewing(limits, e), limits.burst, Lapsing(limits))
  {
    hide Legal, Promptly, Verdicts, Renewing, Lapsing;
    var calls, others := Renewing(limits, e), Lapsing(limits);
    RenewingRun(limits, e);
    LapsingRun(limits);
    assert Times(others) == Without(Times(calls), limits.burst);
    var verdicts := Verdicts(Absent, limits, calls);
    var n := limits.burst + Max(0, 2 * limits.rpm);
    assert Without(verdicts, limits.burst)[n] == verdicts[n + 1];
  }

  lemma {:induction false} QuotientIs(n: int, r: int, q: int)
    requires r >= 1 && r * q <= n < r * q + r
    ensures n / r == q
  {
    var p := n / r;
    if p < q {
      MulAtMost(p + 1, q, r);
    } else if q < p {
      MulAtMost(q + 1, p, r);
    }
  }

  /** At a negative rate every second moves the wait by one. */
  lemma {:induction false} WaitMoves(needed: int, rate: int, e: int)
    requires rate < 0
    ensures Wait(needed - e * rate, rate) == Wait(needed, rate) - e
  {
    var r, q := -rate, needed / -rate;
    Distributes(r, q, e);
    QuotientIs(needed + e * r, r, q + e);
    assert needed - e * rate == needed + e * r;
  }

  lemma {:induction false} Distributes(r: int, q: int, e: int)
    ensures r * (q + e) == r * q + e * r
  {
  }

  /** Two calls, the second of which finds the first one's key or not. */
  lemma {:induction false} TwoCalls(limits: Limits, later: Call)
    requires limits.burst <= 0 && limits.rpm < 0 && LegalCall(Stored(Cap(limits), 0), later)
    ensures var calls := [Call(0, false), later];
            && Legal(Absent, limits, calls)
            && (later.dropped == MayBeDropped(Stored(Cap(limits), 0), later.now) ==>
                  Promptly(Absent, limits, calls))
            && Verdicts(Absent, limits, calls)
               == [Judge(Cap(limits), limits),
                   if later.dropped then Judge(Cap(limits), limits)
                   else Judge(Cap(limits) + later.now * limits.rpm, limits)]
  {
    hide Wait;
    MulNegative(later.now, limits.rpm);
    assert After(Absent, limits, Call(0, false)) == Stored(Cap(limits), 0);
    RunCons(Absent, limits, Call(0, false), [later]);
    RunCons(Stored(Cap(limits), 0), limits, later, []);
    assert [later] + [] == [later] && [Call(0, false)] + [later] == [Call(0, false), later];
  }

  /** Below zero every second counts: deleting the first call changes the next wait. */
  lemma {:induction false} FirstCallMatters(limits: Limits)
    requires limits.burst <= 0 && limits.rpm < 0
    ensures var calls, others := [Call(0, false), Call(1, false)], [Call(1, false)];
            && Deletes(limits, calls, 0, others) && !Unmoved(limits, calls, 0, others)
            && Promptly(Absent, limits, calls) && Promptly(Absent, limits, others)
  {
    var calls, others := [Call(0, false), Call(1, false)], [Call(1, false)];
    TwoCalls(limits, Call(1, false));
    RunCons(Absent, limits, Call(1, false), []);
    assert [Call(1, false)] + [] == others;
    assert Verdicts(Absent, limits, others) == [Judge(Cap(limits), limits)];
    WaitMoves(COST - Cap(limits), limits.rpm, 1);
    hide Wait, Legal, Promptly, Verdicts;
    assert Times(others) == Without(Times(calls), 0);
    assert Without(Verdicts(Absent, limits, calls), 0)[0] == Verdicts(Absent, limits, calls)[1];
  }

  /** Denied calls are forgotten, whichever keys Redis drops, exactly when the bucket
      refills before its key expires. */
  lemma {:induction false} DeniedForgottenExactly(limits: Limits)
    ensures DeniedForgotten(limits) <==> limits.rpm >= 0 && limits.burst <= 2 * limits.rpm
  {
    hide Legal, Verdicts, Renewing, Lapsing;
    if limits.rpm >= 0 && limits.burst <= 2 * limits.rpm {
      forall calls, k, others | Deletes(limits, calls, k, others)
        ensures Unmoved(limits, calls, k, others)
      {
        SmallBurstForgets(limits, calls, k, others);
      }
    } else if limits.burst >= 1 {
      RenewalMatters(limits, 0);
    } else {
      FirstCallMatters(limits);
    }
  }

  /** When keys are dropped as soon as they may be, the times decide the run. */
  lemma {:induction false} SamePromptRun(bucket: Bucket, limits: Limits, a: seq<Call>, b: seq<Call>)
    requires Promptly(bucket, limits, a) && Promptly(bucket, limits, b) && Times(a) == Times(b)
    ensures a == b
    decreases |a|
  {
    assert |a| == |Times(a)| == |b|;
    if a != [] {
      assert Times(a)[0] == Times(b)[0];
      TimesCons(a);
      TimesCons(b);
      assert a[0] == b[0];
      SamePromptRun(After(bucket, limits, a[0]), limits, a[1..], b[1..]);
    }
  }

  /** At a token a second a call is denied only in the second of the last one, so that
      it renews nothing. */
  lemma {:induction false} FastRefillForgets(bucket: Bucket, limits: Limits, calls: seq<Call>,
        k: nat, others: seq<Call>)
    requires limits.rpm >= COST && limits.burst >= 1 && Sound(bucket, limits)
    requires Legal(bucket, limits, calls)
    requires Promptly(bucket, limits, calls) && Promptly(bucket, limits, others)
    requires k < |calls| && !Verdicts(bucket, limits, calls)[k].allowed
    requires Times(others) == Without(Times(calls), k)
    ensures Verdicts(bucket, limits, others) == Without(Verdicts(bucket, limits, calls), k)
    decreases |calls|
  {
    var next := After(bucket, limits, calls[0]);
    var verdicts := Verdicts(bucket, limits, calls);
    assert verdicts == [verdicts[0]] + Verdicts(next, limits, calls[1..]);
    TimesCons(calls);
    if k == 0 {
      DeniedAtOnce(bucket, limits, calls[0]);
      assert Without(Times(calls), 0) == Times(calls[1..]);
      SamePromptRun(bucket, limits, others, calls[1..]);
      assert Without(verdicts, 0) == Verdicts(next, limits, calls[1..]);
    } else {
      WithoutTail(Times(calls), k);
      WithoutTail(verdicts, k);
      assert |others| == |Times(others)|;
      TimesCons(others);
      assert Times(others)[0] == calls[0].now;
      assert others[0] == calls[0];
      assert Times(others[1..]) == Without(Times(calls[1..]), k - 1);
      AfterSound(bucket, limits, calls[0]);
      FastRefillForgets(next, limits, calls[1..], k - 1, others[1..]);
    }
  }

  lemma {:induction false} DeniedAtOnce(bucket: Bucket, limits: Limits, call: Call)
    requires limits.rpm >= COST && limits.burst >= 1 && Sound(bucket, limits)
    requires LegalCall(bucket, call) && !Called(Seen(bucket, call), limits, call.now).1.allowed
    ensures After(bucket, limits, call) == bucket
  {
    if bucket.Stored? && !call.dropped && call.now > bucket.last {
      MulAtMost(1, call.now - bucket.last, limits.rpm);
    }
  }

  /** And with keys dropped as soon as they may be, exactly when it does or a token comes
      every second. */
  lemma {:induction false} DeniedForgottenPromptlyExactly(limits: Limits)
    ensures DeniedForgottenPromptly(limits)
       <==> limits.rpm >= COST || (limits.rpm >= 0 && limits.burst <= 2 * limits.rpm)
  {
    hide Legal, Promptly, Verdicts, Renewing, Lapsing;
    if limits.rpm >= 0 && limits.burst <= 2 * limits.rpm {
      DeniedForgottenExactly(limits);
    } else if limits.rpm >= COST {
      forall calls, k, others | Deletes(limits, calls, k, others)
                                && Promptly(Absent, limits, calls)
                                && Promptly(Absent, limits, others)
        ensures Unmoved(limits, calls, k, others)
      {
        FastRefillForgets(Absent, limits, calls, k, others);
      }
    } else if limits.burst >= 1 {
      RenewalMatters(limits, 1);
      RenewingRun(limits, 1);
      LapsingRun(limits);
    } else {
      FirstCallMatters(limits);
    }
  }

  // --------------------------------------------- when the bucket never expires

  lemma {:induction false} LegalIsOrdered(bucket: Bucket, limits: Limits, calls: seq<Call>, time: int)
    requires Legal(bucket, limits, calls) && (calls != [] ==> time <= calls[0].now)
    ensures Ordered(time, Times(calls))
    decreases |calls|
  {
    if calls != [] {
      TimesCons(calls);
      LegalIsOrdered(After(bucket, limits, calls[0]), limits, calls[1..], calls[0].now);
    }
  }

  /** The verdicts of the bucket that is ticked every second and never expires. */
  ghost predicate Ticked(limits: Limits, calls: seq<Call>) {
    calls != [] && Ordered(calls[0].now, Times(calls)) ==>
      Verdicts(Absent, limits, calls)
      == Ideal(Cap(limits), calls[0].now, limits, Times(calls))
  }

  ghost predicate Refines(limits: Limits) {
    forall calls | Legal(Absent, limits, calls) :: Ticked(limits, calls)
  }

  lemma {:induction false} IdealSameAnswer(limits: Limits, time: int, times: seq<int>)
    requires limits.rpm >= 0 && limits.burst <= 0 && Ordered(time, times)
    ensures forall k :: 0 <= k < |times| ==>
              Ideal(Cap(limits), time, limits, times)[k] == Judge(Cap(limits), limits)
    decreases |times|
  {
    if times != [] {
      hide Wait;
      NoTicks(limits, times[0] - time);
      IdealSameAnswer(limits, times[0], times[1..]);
    }
  }

  lemma {:induction false} NoTicks(limits: Limits, n: nat)
    requires limits.rpm >= 0
    ensures Ticks(Cap(limits), limits, n) == Cap(limits)
    decreases n
  {
    if n > 0 {
      NoTicks(limits, n - 1);
    }
  }

  /** Whoever answers like that bucket forgets denied calls like it. */
  lemma {:induction false} RefiningForgets(limits: Limits, calls: seq<Call>, k: nat,
        others: seq<Call>)
    requires Refines(limits) && Deletes(limits, calls, k, others) && 0 < k
    ensures Unmoved(limits, calls, k, others)
  {
    hide Legal, Verdicts, Ideal;
    var start := calls[0].now;
    assert Ticked(limits, calls) && Ticked(limits, others);
    LegalIsOrdered(Absent, limits, calls, start);
    IdealForgets(Cap(limits), start, limits, Times(calls), k);
    assert |others| == |Times(others)| && |Times(calls)| == |calls|;
    assert Times(others)[0] == Times(calls)[0] == start;
    assert others[0].now == start;
  }

  lemma {:induction false} TicksDown(tokens: int, limits: Limits, n: nat)
    requires limits.rpm <= 0 && tokens <= Cap(limits)
    ensures Ticks(tokens, limits, n) == tokens + n * limits.rpm
    decreases n
  {
    if n > 0 {
      TicksDown(Tick(tokens, limits), limits, n - 1);
      MulAdd(n - 1, 1, limits.rpm);
    }
  }

  lemma {:induction false} IdealTwo(limits: Limits, later: nat)
    requires limits.burst <= 0 && limits.rpm < 0
    ensures Ordered(0, [0, later])
    ensures Ideal(Cap(limits), 0, limits, [0, later])
         == [Judge(Cap(limits), limits), Judge(Cap(limits) + later * limits.rpm, limits)]
  {
    hide Wait;
    assert [0, later][1..] == [later] && [later][1..] == [];
    TicksDown(Cap(limits), limits, 0);
    TicksDown(Cap(limits), limits, later);
    MulNegative(later, limits.rpm);
    var x := Cap(limits) + later * limits.rpm;
    assert Ideal(Spend(x), later, limits, []) == [];
    assert Ideal(Cap(limits), 0, limits, [later]) == [Judge(x, limits)];
    hide Ticks;
  }

  /** Below zero an expiring key forgives what the ticked bucket does not. */
  lemma {:induction false} ExpiryForgives(limits: Limits)
    requires limits.burst <= 0 && limits.rpm < 0
    ensures !Refines(limits)
  {
    var calls := [Call(0, false), Call(EXPIRY, true)];
    TwoCalls(limits, Call(EXPIRY, true));
    IdealTwo(limits, EXPIRY);
    WaitMoves(COST - Cap(limits), limits.rpm, EXPIRY);
    hide Wait, Verdicts, Legal, Ideal, Ordered;
    assert Times(calls) == [0, EXPIRY];
    MulNegative(EXPIRY, limits.rpm);
    assert !Ticked(limits, calls);
  }

  /** The lazily refilled bucket is the ticked one exactly when it refills before its
      key expires. */
  lemma {:induction false} RefinesExactly(limits: Limits)
    ensures Refines(limits) <==> limits.rpm >= 0 && limits.burst <= 2 * limits.rpm
  {
    if limits.rpm >= 0 && limits.burst <= 2 * limits.rpm {
      forall calls | Legal(Absent, limits, calls) ensures Ticked(limits, calls) {
        SmallBurstTicked(limits, calls);
      }
    } else if limits.burst <= 0 {
      ExpiryForgives(limits);
    } else if Refines(limits) {
      hide Refines, Deletes, Unmoved, Renewing, Lapsing;
      RenewalMatters(limits, 0);
      RefiningForgets(limits, Renewing(limits, 0), limits.burst, Lapsing(limits));
    }
  }

  lemma {:induction false} SmallBurstTicked(limits: Limits, calls: seq<Call>)
    requires limits.rpm >= 0 && limits.burst <= 2 * limits.rpm && Legal(Absent, limits, calls)
    ensures Ticked(limits, calls)
  {
    if calls != [] {
      var start := calls[0].now;
      LegalIsOrdered(Absent, limits, calls, start);
      if limits.burst <= 0 {
        hide Verdicts, Ideal, Legal;
        SameAnswer(Absent, limits, calls);
        IdealSameAnswer(limits, start, Times(calls));
      } else {
        LazyRefinesTicked(Absent, limits, calls, Cap(limits), start);
      }
    }
  }
}
