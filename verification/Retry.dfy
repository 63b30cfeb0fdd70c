/** The retry loop with exponential delays, and the outbox backoff. */
module Retry {
  import opened Wrappers
  import opened Sums

  function Pow2(n: nat): (power: int)
    ensures power >= 1
  {
    if n == 0 then 1 else 2 * Pow2(n - 1)
  }

  lemma {:induction false} Pow2Grows(m: nat, n: nat)
    requires m <= n
    ensures Pow2(m) <= Pow2(n)
    decreases n - m
  {
    if m < n {
      Pow2Grows(m, n - 1);
    }
  }

  /** `maxMs` of zero or none means no cap. */
  datatype Policy = Policy(maxAttempts: int, baseMs: nat, maxMs: Option<int>, jitter: bool)

  /** A sample of Math.random. */
  type Random = r: real | 0.0 <= r < 1.0 witness 0.0

  function Capped(attempt: int, policy: Policy): int {
    var base := policy.baseMs * Pow2(if attempt <= 1 then 0 else attempt - 1);
    if policy.maxMs.Some? && policy.maxMs.value != 0 && policy.maxMs.value < base
    then policy.maxMs.value
    else base
  }

  /** A delay between one half and all of `capped`, rounded down. */
  function Jittered(capped: int, random: Random): int {
    (capped as real * (0.5 + random * 0.5)).Floor
  }

  function ComputeDelay(attempt: int, policy: Policy, random: Random): int {
    var capped := Capped(attempt, policy);
    if !policy.jitter then capped else Jittered(capped, random)
  }

  lemma PowerTimesBase(base: nat, n: nat)
    ensures 0 <= base * Pow2(n)
    ensures base * Pow2(n + 1) == 2 * (base * Pow2(n))
  {
  }

  predicate CapIsSane(policy: Policy) {
    policy.maxMs.Some? ==> policy.maxMs.value >= 0
  }

  /**
   * A cap only lowers a delay, and jitter only shortens it, by at most half. A negative cap
   * gives negative delays, which are no waiting at all.
   */
  lemma DelayWithin(attempt: int, policy: Policy, random: Random)
    requires attempt >= 1
    ensures Capped(attempt, policy) <= policy.baseMs * Pow2(attempt - 1)
    ensures ComputeDelay(attempt, policy, random) <= policy.baseMs * Pow2(attempt - 1)
    ensures CapIsSane(policy) ==>
              && 0 <= ComputeDelay(attempt, policy, random) <= Capped(attempt, policy)
              && 2 * ComputeDelay(attempt, policy, random) >= Capped(attempt, policy) - 1
  {
    PowerTimesBase(policy.baseMs, attempt - 1);
    assert Capped(attempt, policy) <= policy.baseMs * Pow2(attempt - 1);
    assert CapIsSane(policy) ==> Capped(attempt, policy) >= 0;
    hide Capped, CapIsSane, Jittered;
    if policy.jitter {
      JitterShortens(Capped(attempt, policy), random);
    }
  }

  lemma JitterShortens(capped: int, random: Random)
    ensures capped >= 0 ==> 0 <= Jittered(capped, random) <= capped && 2 * Jittered(capped, random) >= capped - 1
    ensures capped < 0 ==> Jittered(capped, random) < 0
  {
    Scaled(capped, 0.5 + random * 0.5);
  }

  /** Without jitter the delays are the base, twice the base, and so on, up to the cap if there is one. */
  lemma DelaysDouble(attempt: int, policy: Policy, random: Random)
    requires attempt >= 1 && !policy.jitter
    ensures policy.maxMs == None || policy.maxMs == Some(0) ==>
              && ComputeDelay(1, policy, random) == policy.baseMs
              && ComputeDelay(attempt + 1, policy, random) == 2 * ComputeDelay(attempt, policy, random)
    ensures policy.maxMs.Some? && policy.maxMs.value > 0 ==>
              && ComputeDelay(1, policy, random) == AtMost(policy.baseMs, policy.maxMs.value)
              && ComputeDelay(attempt + 1, policy, random) ==
                 AtMost(2 * ComputeDelay(attempt, policy, random), policy.maxMs.value)
  {
    PowerTimesBase(policy.baseMs, attempt - 1);
  }

  function AtMost(delay: int, cap: int): int {
    if delay < cap then delay else cap
  }

  /** Every whole delay from one half up to the target is drawn for some sample. */
  lemma JitterReaches(capped: int, delay: int)
    requires capped > 0 && capped <= 2 * delay && delay < capped
    ensures exists random: Random :: Jittered(capped, random) == delay
    ensures Jittered(capped, 0.0) == capped / 2
  {
    var share := Share(delay as real, capped as real);
    ShareWithin(delay as real, capped as real, share);
    DelayAtShare(capped, share, delay);
  }

  lemma ShareWithin(part: real, whole: real, share: real)
    requires 0.0 < whole <= 2.0 * part && part < whole && whole * share == part
    ensures 0.5 <= share < 1.0
  {
    ScalingKeepsOrder(whole, share, 0.5);
    ScalingKeepsOrder(whole, share, 1.0);
    assert whole * 0.5 <= whole * share < whole * 1.0;
  }

  lemma DelayAtShare(capped: int, share: real, delay: int)
    requires 0.5 <= share < 1.0 && capped as real * share == delay as real
    ensures Jittered(capped, 2.0 * share - 1.0) == delay
  {
    var random: Random := 2.0 * share - 1.0;
    assert 0.5 + random * 0.5 == share;
  }

  function Share(part: real, whole: real): (share: real)
    requires whole > 0.0
    ensures whole * share == part
  {
    part / whole
  }

  lemma ScalingKeepsOrder(scale: real, x: real, y: real)
    requires scale > 0.0
    ensures x < y <==> scale * x < scale * y
  {
    if x >= y {
      assert scale * (x - y) >= 0.0;
    }
  }

  lemma ProductAtLeastZero(x: real, y: real)
    requires x >= 0.0 && y >= 0.0
    ensures x * y >= 0.0
  {
  }

  lemma Scaled(capped: int, factor: real)
    requires 0.5 <= factor <= 1.0
    ensures capped >= 0 ==> 0 <= (capped as real * factor).Floor <= capped
    ensures capped >= 0 ==> 2 * (capped as real * factor).Floor >= capped - 1
    ensures capped < 0 ==> (capped as real * factor).Floor < 0
  {
    var whole := capped as real;
    if capped >= 0 {
      ProductAtLeastZero(whole, factor - 0.5);
      ProductAtLeastZero(whole, 1.0 - factor);
      assert whole * (factor - 0.5) == whole * factor - whole * 0.5;
      assert whole * (1.0 - factor) == whole - whole * factor;
    } else {
      ProductAtLeastZero(-whole, factor - 0.5);
      assert (-whole) * (factor - 0.5) == whole * 0.5 - whole * factor;
      assert whole * factor <= whole * 0.5 < 0.0;
      assert (whole * factor).Floor as real <= whole * factor;
    }
  }

  // ---------- the loop ----------

  /** How one attempt ends. An error that HCM did not classify counts as retryable. */
  datatype Outcome<T> = Returned(value: T) | Threw(retryable: bool)

  /** How the whole loop ends; with no attempt allowed it throws without having tried. */
  datatype Verdict<T> = Result(value: T) | Error(outcome: Outcome<T>) | Untried

  /**
   * Runs attempts 1, 2, ... until one returns, throws for good, or is the last. It sleeps after
   * every attempt but the final one, and the sleeps together stay within
   * baseMs (2^(maxAttempts - 1) - 1), whatever the jitter.
   */
  method WithRetry<T>(attempts: nat -> Outcome<T>, policy: Policy, randoms: nat -> Random)
    returns (verdict: Verdict<T>, calls: nat, sleeps: seq<int>)
    ensures policy.maxAttempts <= 0 ==> verdict == Untried && calls == 0
    ensures policy.maxAttempts >= 1 ==>
              && 1 <= calls <= policy.maxAttempts
              && (forall n | 1 <= n < calls :: attempts(n) == Threw(true))
              && (attempts(calls) == Threw(true) ==> calls == policy.maxAttempts)
              && verdict == (if attempts(calls).Returned? then Result(attempts(calls).value)
                             else Error(attempts(calls)))
    ensures |sleeps| == if calls == 0 then 0 else calls - 1
    ensures forall n | 0 <= n < |sleeps| :: sleeps[n] == ComputeDelay(n + 1, policy, randoms(n + 1))
    ensures policy.maxAttempts >= 1 ==>
              Sum(sleeps) <= policy.baseMs * (Pow2(policy.maxAttempts - 1) - 1)
  {
    hide ComputeDelay, Capped;
    calls := 0;
    sleeps := [];
    var attempt := 1;
    verdict := Untried;
    while attempt <= policy.maxAttempts
      invariant 1 <= attempt && calls == attempt - 1 && |sleeps| == calls
      invariant attempt <= policy.maxAttempts || (attempt == 1 && policy.maxAttempts <= 0)
      invariant verdict == Untried
      invariant forall n | 1 <= n < attempt :: attempts(n) == Threw(true)
      invariant forall n | 0 <= n < |sleeps| :: sleeps[n] == ComputeDelay(n + 1, policy, randoms(n + 1))
      invariant Sum(sleeps) <= policy.baseMs * (Pow2(attempt - 1) - 1)
    {
      calls := calls + 1;
      var outcome := attempts(attempt);
      if outcome.Returned? {
        verdict := Result(outcome.value);
        BoundGrows(policy.baseMs, attempt - 1, policy.maxAttempts - 1);
        return;
      }
      if !outcome.retryable || attempt == policy.maxAttempts {
        verdict := Error(outcome);
        BoundGrows(policy.baseMs, attempt - 1, policy.maxAttempts - 1);
        return;
      }
      var delay := ComputeDelay(attempt, policy, randoms(attempt));
      DelayWithin(attempt, policy, randoms(attempt));
      SumAppend(sleeps, delay);
      BoundStep(policy.baseMs, attempt - 1);
      sleeps := sleeps + [delay];
      attempt := attempt + 1;
    }
  }

  lemma BoundStep(base: nat, n: nat)
    ensures base * (Pow2(n) - 1) + base * Pow2(n) == base * (Pow2(n + 1) - 1)
  {
  }

  lemma BoundGrows(base: nat, m: nat, n: nat)
    requires m <= n
    ensures base * (Pow2(m) - 1) <= base * (Pow2(n) - 1)
  {
    Pow2Grows(m, n);
    assert base * (Pow2(n) - Pow2(m)) >= 0;
  }

  // ---------- the outbox backoff ----------

  const BACKOFF_BASE := 500
  const BACKOFF_CAP := 60000

  function BackoffMs(attempt: nat): int
    requires attempt >= 1
  {
    var exponential := BACKOFF_BASE * Pow2(attempt - 1);
    if exponential < BACKOFF_CAP then exponential else BACKOFF_CAP
  }

  /** The backoffs of the first `k` failed deliveries. */
  function Backoffs(k: nat): (delays: seq<int>)
    ensures |delays| == k
  {
    seq(k, i requires 0 <= i < k => BackoffMs(i + 1))
  }

  lemma BackoffsNeverShrink(attempt: nat, later: nat)
    requires 1 <= attempt <= later
    ensures BACKOFF_BASE <= BackoffMs(attempt) <= BackoffMs(later) <= BACKOFF_CAP
  {
    Pow2Grows(attempt - 1, later - 1);
  }

  /** The first backoff is half a second, and each one is twice the one before, up to a minute. */
  lemma BackoffsDouble(attempt: nat)
    requires attempt >= 1
    ensures BackoffMs(1) == 500
    ensures BackoffMs(attempt + 1) == AtMost(2 * BackoffMs(attempt), 60000)
  {
  }

  /** `k` backoffs last at most k minutes, and at most 500 (2^k - 1) ms. */
  lemma {:induction false} BackoffsAltogether(k: nat)
    ensures Sum(Backoffs(k)) <= BACKOFF_CAP * k
    ensures Sum(Backoffs(k)) <= BACKOFF_BASE * (Pow2(k) - 1)
    ensures Sum(Backoffs(k)) >= BACKOFF_BASE * k
  {
    if k > 0 {
      BackoffsAltogether(k - 1);
      assert Backoffs(k) == Backoffs(k - 1) + [BackoffMs(k)];
      SumAppend(Backoffs(k - 1), BackoffMs(k));
      BackoffsNeverShrink(k, k);
      assert Pow2(k) == 2 * Pow2(k - 1) && BackoffMs(k) <= BACKOFF_BASE * Pow2(k - 1);
      hide Pow2, BackoffMs, Backoffs, Sum;
    }
  }
}
