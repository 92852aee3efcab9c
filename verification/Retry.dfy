/** Retry policies with capped exponential backoff. */
module Retry {
  import opened Arithmetic

  const MAX_U32: int := 0xFFFF_FFFF

  type u32 = x: int | 0 <= x <= 0xFFFF_FFFF

  /** The longest duration, in nanoseconds: all seconds of a 64-bit word and the last nanosecond. */
  const MAX_DURATION: int := 0xFFFF_FFFF_FFFF_FFFF * 1_000_000_000 + 999_999_999

  type Duration = d: int | 0 <= d <= MAX_DURATION

  datatype RetryPolicyKind =
    | Never
    | Fixed(maxAttempts: u32, delay: Duration)
    | Exponential(maxAttempts: u32, baseDelay: Duration, maxDelay: Duration)
    | InfiniteExponential(baseDelay: Duration, maxDelay: Duration)

  /** The attempt that failed, counted from 1. */
  datatype RetryContext = RetryContext(attemptNo: u32, totalAttempts: u32, transientError: bool)

  datatype RetryDecision = Fail | RetryAfter(delay: Duration)

  // ----- machine arithmetic -----

  function SaturatingMul(d: Duration, k: u32): Duration {
    if d * k <= MAX_DURATION then d * k else MAX_DURATION
  }

  function Pow2(k: nat): (r: nat)
    ensures r > 0
  {
    if k == 0 then 1 else 2 * Pow2(k - 1)
  }

  function SaturatingPow2(k: nat): u32 {
    if Pow2(k) <= MAX_U32 then Pow2(k) else MAX_U32
  }

  function Backoff(attemptNo: u32, baseDelay: Duration, maxDelay: Duration): Duration {
    var doublings: nat := if attemptNo == 0 then 0 else if attemptNo - 1 < 16 then attemptNo - 1 else 16;
    var delay := SaturatingMul(baseDelay, SaturatingPow2(doublings));
    if delay > maxDelay then maxDelay else delay
  }

  function Decide(policy: RetryPolicyKind, ctx: RetryContext): RetryDecision {
    if !ctx.transientError then Fail
    else
      match policy
      case Never => Fail
      case Fixed(maxAttempts, delay) => if ctx.attemptNo >= maxAttempts then Fail else RetryAfter(delay)
      case Exponential(maxAttempts, baseDelay, maxDelay) =>
        if ctx.attemptNo >= maxAttempts then Fail else RetryAfter(Backoff(ctx.attemptNo, baseDelay, maxDelay))
      case InfiniteExponential(baseDelay, maxDelay) => RetryAfter(Backoff(ctx.attemptNo, baseDelay, maxDelay))
  }

  // ----- delays -----

  function Min(a: int, b: int): int { if a <= b then a else b }

  lemma {:induction false} PowMonotone(j: nat, k: nat)
    requires j <= k
    ensures Pow2(j) <= Pow2(k)
    decreases k
  {
    if j < k {
      PowMonotone(j, k - 1);
    }
  }

  lemma Pow16()
    ensures Pow2(16) == 65536
  {
    assert Pow2(4) == 16 && Pow2(8) == 256 && Pow2(12) == 4096;
  }

  /** Neither the power nor the product is ever seen to saturate: the cap is below both. */
  lemma BackoffIsExact(attemptNo: u32, baseDelay: Duration, maxDelay: Duration)
    ensures attemptNo >= 1 ==> Backoff(attemptNo, baseDelay, maxDelay) == Min(maxDelay, baseDelay * Pow2(Min(attemptNo - 1, 16)))
    ensures attemptNo == 0 ==> Backoff(attemptNo, baseDelay, maxDelay) == Min(maxDelay, baseDelay)
  {
    Pow16();
    if attemptNo >= 1 {
      PowMonotone(Min(attemptNo - 1, 16), 16);
    }
  }

  /** A retry is refused exactly for an error that is not transient, under `Never`, or once the attempts are used up. */
  lemma RefusedExactly(policy: RetryPolicyKind, ctx: RetryContext)
    ensures Decide(policy, ctx) == Fail <==>
              || !ctx.transientError || policy.Never?
              || ((policy.Fixed? || policy.Exponential?) && policy.maxAttempts <= ctx.attemptNo)
  {
  }

  /** The delay granted: the fixed one, or the base delay doubled for each earlier attempt, sixteen times at most, up to the cap. */
  lemma DelayGranted(policy: RetryPolicyKind, ctx: RetryContext)
    requires Decide(policy, ctx).RetryAfter?
    ensures policy.Fixed? ==> Decide(policy, ctx).delay == policy.delay
    ensures (policy.Exponential? || policy.InfiniteExponential?) && ctx.attemptNo >= 1 ==>
              Decide(policy, ctx).delay == Min(policy.maxDelay, policy.baseDelay * Pow2(Min(ctx.attemptNo - 1, 16)))
    ensures (policy.Exponential? || policy.InfiniteExponential?) && ctx.attemptNo == 0 ==>
              Decide(policy, ctx).delay == Min(policy.maxDelay, policy.baseDelay)
  {
    hide Backoff;
    if policy.Exponential? || policy.InfiniteExponential? {
      BackoffIsExact(ctx.attemptNo, policy.baseDelay, policy.maxDelay);
    }
  }

  /** `InfiniteExponential` grants a retry after every transient failure and waits equally long from the 17th attempt on. */
  lemma InfiniteGoesOn(policy: RetryPolicyKind, a: u32, b: u32)
    requires policy.InfiniteExponential? && 1 <= a <= b
    ensures Decide(policy, RetryContext(a, a, true)).RetryAfter? && Decide(policy, RetryContext(b, b, true)).RetryAfter?
    ensures Decide(policy, RetryContext(a, a, true)).delay <= Decide(policy, RetryContext(b, b, true)).delay
    ensures 17 <= a ==> Decide(policy, RetryContext(a, a, true)).delay == Decide(policy, RetryContext(b, b, true)).delay
  {
    hide Backoff;
    BackoffGrows(a, b, policy.baseDelay, policy.maxDelay);
    BackoffIsExact(a, policy.baseDelay, policy.maxDelay);
    BackoffIsExact(b, policy.baseDelay, policy.maxDelay);
  }

  /** A later attempt never waits less. */
  lemma BackoffGrows(a: u32, b: u32, baseDelay: Duration, maxDelay: Duration)
    requires 1 <= a <= b
    ensures Backoff(a, baseDelay, maxDelay) <= Backoff(b, baseDelay, maxDelay)
  {
    BackoffIsExact(a, baseDelay, maxDelay);
    BackoffIsExact(b, baseDelay, maxDelay);
    PowMonotone(Min(a - 1, 16), Min(b - 1, 16));
    TimesMonotone(baseDelay, Pow2(Min(a - 1, 16)), Pow2(Min(b - 1, 16)));
  }

  /** The delay is the documented base * 2^attempt, clamped, exactly when the clamp hides the difference. */
  lemma DocumentedDelay(attemptNo: u32, baseDelay: Duration, maxDelay: Duration)
    requires attemptNo >= 1
    ensures Backoff(attemptNo, baseDelay, maxDelay) == Min(maxDelay, baseDelay * Pow2(attemptNo))
            <==> baseDelay == 0 || maxDelay <= baseDelay * Pow2(Min(attemptNo - 1, 16))
  {
    BackoffIsExact(attemptNo, baseDelay, maxDelay);
    var k: nat := Min(attemptNo - 1, 16);
    PowMonotone(k, attemptNo - 1);
    ClampHides(baseDelay, Pow2(k), Pow2(attemptNo), maxDelay);
  }

  lemma ClampHides(d: nat, x: nat, y: nat, cap: nat)
    requires x < y
    ensures Min(cap, d * x) == Min(cap, d * y) <==> d == 0 || cap <= d * x
  {
    TimesMonotone(d, x + 1, y);
    assert d * (x + 1) == d * x + d;
  }

  // ----- a task that keeps failing -----

  /** The delays granted from attempt `attemptNo` on, when every attempt fails with a transient error. */
  function Delays(policy: RetryPolicyKind, attemptNo: u32): seq<Duration>
    requires policy.Exponential? || policy.Fixed?
    decreases policy.maxAttempts - attemptNo
  {
    match Decide(policy, RetryContext(attemptNo, attemptNo, true))
    case Fail => []
    case RetryAfter(delay) => [delay] + Delays(policy, attemptNo + 1)
  }

  function Sum(s: seq<Duration>): nat { if s == [] then 0 else s[0] + Sum(s[1..]) }

  /** One retry less than attempts allowed. */
  lemma {:induction false} RetriesGranted(policy: RetryPolicyKind, attemptNo: u32)
    requires policy.Exponential? || policy.Fixed?
    ensures |Delays(policy, attemptNo)| == if attemptNo < policy.maxAttempts then policy.maxAttempts - attemptNo else 0
    decreases policy.maxAttempts - attemptNo
  {
    if attemptNo < policy.maxAttempts {
      RetriesGranted(policy, attemptNo + 1);
    }
  }

  lemma NextDelay(policy: RetryPolicyKind, a: u32)
    requires policy.Exponential? && 1 <= a < policy.maxAttempts
    ensures Sum(Delays(policy, a)) == Backoff(a, policy.baseDelay, policy.maxDelay) + Sum(Delays(policy, a + 1))
    ensures Backoff(a, policy.baseDelay, policy.maxDelay) <= policy.maxDelay
    ensures Backoff(a, policy.baseDelay, policy.maxDelay) <= policy.baseDelay * Pow2(a - 1)
  {
    BackoffIsExact(a, policy.baseDelay, policy.maxDelay);
    PowMonotone(Min(a - 1, 16), a - 1);
    TimesMonotone(policy.baseDelay, Pow2(Min(a - 1, 16)), Pow2(a - 1));
    hide Backoff;
    assert Delays(policy, a) == [Backoff(a, policy.baseDelay, policy.maxDelay)] + Delays(policy, a + 1);
  }

  lemma {:induction false} SumBelowCaps(policy: RetryPolicyKind, a: u32)
    requires policy.Exponential? && 1 <= a <= policy.maxAttempts
    ensures Sum(Delays(policy, a)) <= (policy.maxAttempts - a) * policy.maxDelay
    decreases policy.maxAttempts - a
  {
    if a < policy.maxAttempts {
      hide Delays, Sum, Backoff;
      SumBelowCaps(policy, a + 1);
      NextDelay(policy, a);
      Shorter(policy.maxAttempts - a, policy.maxDelay);
    }
  }

  lemma {:induction false} SumBelowDoubling(policy: RetryPolicyKind, a: u32)
    requires policy.Exponential? && 1 <= a <= policy.maxAttempts
    ensures Sum(Delays(policy, a)) <= policy.baseDelay * (Pow2(policy.maxAttempts - 1) - Pow2(a - 1))
    decreases policy.maxAttempts - a
  {
    if a < policy.maxAttempts {
      assert Pow2(a) == 2 * Pow2(a - 1);
      hide Delays, Sum, Backoff, Pow2;
      SumBelowDoubling(policy, a + 1);
      NextDelay(policy, a);
      Telescope(policy.baseDelay, Pow2(policy.maxAttempts - 1), Pow2(a - 1), Pow2(a),
                Backoff(a, policy.baseDelay, policy.maxDelay), Sum(Delays(policy, a + 1)));
    }
  }

  lemma Telescope(base: nat, top: nat, p: nat, next: nat, delay: nat, rest: nat)
    requires next == 2 * p && delay <= base * p && rest <= base * (top - next)
    ensures delay + rest <= base * (top - p)
  {
    assert base * p + base * (top - 2 * p) == base * (top - p);
  }

  lemma Shorter(k: nat, d: nat)
    requires k > 0
    ensures d + (k - 1) * d == k * d
  {
  }

  /** All waiting together is bounded by the cap per retry and by the doubling. */
  lemma TotalDelayBounded(policy: RetryPolicyKind)
    requires policy.Exponential? && policy.maxAttempts >= 1
    ensures Sum(Delays(policy, 1)) <= Min((policy.maxAttempts - 1) * policy.maxDelay, policy.baseDelay * (Pow2(policy.maxAttempts - 1) - 1))
  {
    SumBelowCaps(policy, 1);
    SumBelowDoubling(policy, 1);
  }
}
