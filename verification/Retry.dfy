/** Retrying a gateway call, and the doubling backoff between attempts in 64-bit arithmetic. */
module Retry {
  const MAX_INT64 := 0x7fff_ffff_ffff_ffff
  const TWO_TO_64 := 0x1_0000_0000_0000_0000

  type int64 = x: int | -MAX_INT64 - 1 <= x <= MAX_INT64

  /** Two's-complement wrap-around. */
  function Wrap64(x: int): int64 {
    var low := x % TWO_TO_64;
    if low > MAX_INT64 then low - TWO_TO_64 else low
  }

  datatype RetryConfig = RetryConfig(maxRetries: int64, backoff: int64, maxBackoff: int64, retryAfter429: bool)

  datatype OpResult = Succeeded | Failed(rateLimited: bool)

  /** `Interrupted`: the context ended while waiting for the limiter or during a backoff. */
  datatype Outcome = Returned(result: OpResult) | Interrupted

  function Attempts(cfg: RetryConfig): (n: nat)
    ensures n == if 0 <= cfg.maxRetries < MAX_INT64 then cfg.maxRetries + 1 else 1
  {
    if Wrap64(cfg.maxRetries + 1) <= 0 then 1 else Wrap64(cfg.maxRetries + 1)
  }

  predicate Retryable(cfg: RetryConfig, r: OpResult) {
    r.Failed? && (r.rateLimited ==> cfg.retryAfter429)
  }

  /**
   The environment answers for attempt `i`: `waits(i)` and `sleeps(i)` say whether the limiter
   wait and the backoff end without cancellation, `op(i)` what the operation returns.
   */
  method WithStreamingRetry(cfg: RetryConfig, waits: nat -> bool, op: nat -> OpResult, sleeps: nat -> bool)
    returns (outcome: Outcome, calls: nat)
    ensures forall i | 0 <= i < calls - 1 ::
              waits(i) && op(i).Failed? && (op(i).rateLimited ==> cfg.retryAfter429) && sleeps(i)
    ensures var attempts := if 0 <= cfg.maxRetries < MAX_INT64 then cfg.maxRetries + 1 else 1;
            match outcome
            case Returned(result) =>
              && 0 < calls <= attempts && waits(calls - 1) && result == op(calls - 1)
              && (calls < attempts ==> result.Succeeded? || (result.rateLimited && !cfg.retryAfter429))
            case Interrupted =>
              && calls < attempts
              && (calls > 0 ==> waits(calls - 1) && op(calls - 1).Failed?
                                && (op(calls - 1).rateLimited ==> cfg.retryAfter429))
              && (!waits(calls) || (calls > 0 && !sleeps(calls - 1)))
              && (calls > 0 && sleeps(calls - 1) ==> !waits(calls))
  {
    var attempts := Attempts(cfg);
    calls := 0;
    while true
      invariant calls < attempts
      invariant forall i | 0 <= i < calls ::
                  waits(i) && op(i).Failed? && (op(i).rateLimited ==> cfg.retryAfter429) && sleeps(i)
      decreases attempts - calls
    {
      if !waits(calls) {
        return Interrupted, calls;
      }
      var result := op(calls);
      calls := calls + 1;
      if result == Succeeded || calls == attempts || !Retryable(cfg, result) {
        return Returned(result), calls;
      }
      if !sleeps(calls - 1) {
        return Interrupted, calls;
      }
    }
  }

  // ---- Backoff ----

  function Pow2(n: nat): (p: nat)
    ensures p > 0
  {
    if n == 0 then 1 else 2 * Pow2(n - 1)
  }

  /** Doubling `attempt` times with wrap-around, stopping at the cap once it is passed. */
  function Doubled(backoff: int64, maxBackoff: int64, attempt: nat): int64
    decreases attempt
  {
    if attempt == 0 then backoff
    else
      var next := Wrap64(backoff * 2);
      if maxBackoff > 0 && next > maxBackoff then maxBackoff else Doubled(next, maxBackoff, attempt - 1)
  }

  method BackoffFor(cfg: RetryConfig, attempt: nat) returns (sleep: int64)
    ensures sleep == if cfg.backoff <= 0 then 0 else Doubled(cfg.backoff, cfg.maxBackoff, attempt)
  {
    sleep := 0;
    var backoff: int64 := cfg.backoff;
    if backoff <= 0 {
      return;
    }
    var i := 0;
    while i < attempt
      invariant 0 <= i <= attempt
      invariant Doubled(cfg.backoff, cfg.maxBackoff, attempt) == Doubled(backoff, cfg.maxBackoff, attempt - i)
    {
      backoff := Wrap64(backoff * 2);
      if cfg.maxBackoff > 0 && backoff > cfg.maxBackoff {
        return cfg.maxBackoff;
      }
      i := i + 1;
    }
    return backoff;
  }

  /** What the documentation means: double per attempt, never above the cap; the first sleep is uncapped. */
  function Capped(backoff: int, maxBackoff: int, attempt: nat): int {
    if attempt == 0 then backoff
    else if backoff * Pow2(attempt) <= maxBackoff then backoff * Pow2(attempt) else maxBackoff
  }

  /** Every doubling that is still within the cap can be doubled once more in 64 bits. */
  ghost predicate NeverOverflows(backoff: int64, maxBackoff: int64) {
    && backoff <= MAX_INT64 / 2
    && forall k: nat :: backoff * Pow2(k) <= maxBackoff ==> backoff * Pow2(k) <= MAX_INT64 / 2
  }

  /** Without a cap, attempt `a` sleeps Backoff * 2^a as long as that fits. */
  lemma {:induction false} DoubledUncapped(backoff: int64, maxBackoff: int64, a: nat)
    requires backoff > 0 && maxBackoff <= 0 && backoff * Pow2(a) <= MAX_INT64
    ensures Doubled(backoff, maxBackoff, a) == backoff * Pow2(a)
    decreases a
  {
    if a > 0 {
      DoublingShifts(backoff, a - 1);
      AtLeastOnce(2 * backoff, Pow2(a - 1));
      var next: int64 := 2 * backoff;
      DoubledOnce(backoff, maxBackoff, a);
      hide Pow2, Doubled;
      DoubledUncapped(next, maxBackoff, a - 1);
    } else {
      assert Pow2(0) == 1;
    }
  }

  lemma DoubledOnce(backoff: int64, maxBackoff: int64, a: nat)
    requires 0 < 2 * backoff <= MAX_INT64 && maxBackoff <= 0 && a > 0
    ensures Doubled(backoff, maxBackoff, a) == Doubled(2 * backoff, maxBackoff, a - 1)
  {
    assert Wrap64(backoff * 2) == 2 * backoff;
  }

  /**
   With a cap, the loop computes the capped backoff for every attempt exactly when no doubling can
   overflow; without one (a cap that is not positive), an attempt's sleep is Backoff * 2^a exactly when that fits.
   */
  lemma BackoffIffNoOverflow(backoff: int64, maxBackoff: int64)
    requires backoff > 0
    ensures maxBackoff > 0 ==>
              ((forall a: nat :: Doubled(backoff, maxBackoff, a) == Capped(backoff, maxBackoff, a))
               <==> NeverOverflows(backoff, maxBackoff))
    ensures maxBackoff <= 0 ==>
              forall a: nat :: Doubled(backoff, maxBackoff, a) == backoff * Pow2(a) <==> backoff * Pow2(a) <= MAX_INT64
    ensures 0 < maxBackoff <= MAX_INT64 / 2 && backoff <= MAX_INT64 / 2 ==> NeverOverflows(backoff, maxBackoff)
  {
    if maxBackoff <= 0 {
      forall a: nat ensures Doubled(backoff, maxBackoff, a) == backoff * Pow2(a) <==> backoff * Pow2(a) <= MAX_INT64 {
        if backoff * Pow2(a) <= MAX_INT64 {
          DoubledUncapped(backoff, maxBackoff, a);
        }
      }
    } else if NeverOverflows(backoff, maxBackoff) {
      forall a: nat ensures Doubled(backoff, maxBackoff, a) == Capped(backoff, maxBackoff, a) {
        DoubledIsCapped(backoff, maxBackoff, a);
      }
    } else if backoff > MAX_INT64 / 2 {
      DoublingWraps(backoff, maxBackoff, 0);
    } else {
      var k: nat :| backoff * Pow2(k) <= maxBackoff && backoff * Pow2(k) > MAX_INT64 / 2;
      DoublingWraps(backoff, maxBackoff, k);
    }
  }

  /** The first doubling that does not fit turns negative, and stays below the cap. */
  lemma DoublingWraps(backoff: int64, maxBackoff: int64, k: nat)
    requires backoff > 0 && maxBackoff > 0
    requires k > 0 ==> backoff * Pow2(k) <= maxBackoff
    requires MAX_INT64 / 2 < backoff * Pow2(k) <= MAX_INT64
    ensures Doubled(backoff, maxBackoff, k + 1) < 0 < Capped(backoff, maxBackoff, k + 1)
  {
    var x: int64 := backoff * Pow2(k);
    if k > 0 {
      DoublingsWithinCap(backoff, maxBackoff, k, 1);
    } else {
      assert x == backoff;
    }
    assert Doubled(x, maxBackoff, 1) == Wrap64(x * 2) < 0;
  }

  lemma NeverOverflowsDoubled(backoff: int64, maxBackoff: int64)
    requires backoff > 0 && 2 * backoff <= maxBackoff && NeverOverflows(backoff, maxBackoff)
    ensures NeverOverflows(2 * backoff, maxBackoff)
  {
    assert backoff * Pow2(1) == 2 * backoff;
    forall k: nat | 2 * backoff * Pow2(k) <= maxBackoff ensures 2 * backoff * Pow2(k) <= MAX_INT64 / 2 {
      DoublingShifts(backoff, k);
      assert backoff * Pow2(k + 1) <= maxBackoff;
    }
  }

  lemma DoublingShifts(backoff: int, k: nat)
    ensures backoff * Pow2(k + 1) == 2 * backoff * Pow2(k)
  {
    var p := Pow2(k);
    assert Pow2(k + 1) == 2 * p;
    assert backoff * (2 * p) == 2 * backoff * p;
  }

  lemma {:induction false} DoubledIsCapped(backoff: int64, maxBackoff: int64, attempt: nat)
    requires backoff > 0 && maxBackoff > 0 && NeverOverflows(backoff, maxBackoff)
    ensures Doubled(backoff, maxBackoff, attempt) == Capped(backoff, maxBackoff, attempt)
    decreases attempt
  {
    if attempt > 0 {
      CappedStep(backoff, maxBackoff, attempt);
      DoubledStep(backoff, maxBackoff, attempt);
      if 2 * backoff <= maxBackoff {
        NeverOverflowsDoubled(backoff, maxBackoff);
        DoubledIsCapped(2 * backoff, maxBackoff, attempt - 1);
      }
    }
  }

  lemma DoubledStep(backoff: int64, maxBackoff: int64, attempt: nat)
    requires 0 < backoff <= MAX_INT64 / 2 && maxBackoff > 0 && attempt > 0
    ensures Doubled(backoff, maxBackoff, attempt)
            == if 2 * backoff <= maxBackoff then Doubled(2 * backoff, maxBackoff, attempt - 1) else maxBackoff
  {
    assert Wrap64(backoff * 2) == 2 * backoff;
  }

  lemma CappedStep(backoff: int, maxBackoff: int, attempt: nat)
    requires backoff > 0 && maxBackoff > 0 && attempt > 0
    ensures Capped(backoff, maxBackoff, attempt)
            == if 2 * backoff <= maxBackoff then Capped(2 * backoff, maxBackoff, attempt - 1) else maxBackoff
  {
    DoublingShifts(backoff, attempt - 1);
    AtLeastOnce(2 * backoff, Pow2(attempt - 1));
  }

  lemma AtLeastOnce(x: int, p: int)
    requires x > 0 && p > 0
    ensures x * p >= x
  {
    assert x * (p - 1) >= 0;
  }

  /** While the doublings stay within the cap the loop neither wraps nor stops. */
  lemma {:induction false} DoublingsWithinCap(backoff: int64, maxBackoff: int64, k: nat, rest: nat)
    requires backoff > 0 && 0 < backoff * Pow2(k) <= maxBackoff
    ensures Doubled(backoff, maxBackoff, k + rest) == Doubled(backoff * Pow2(k), maxBackoff, rest)
    decreases k
  {
    if k > 0 {
      DoublingShifts(backoff, k - 1);
      AtLeastOnce(2 * backoff, Pow2(k - 1));
      DoubledStep(backoff, maxBackoff, k + rest);
      DoublingsWithinCap(2 * backoff, maxBackoff, k - 1, rest);
    }
  }
}
