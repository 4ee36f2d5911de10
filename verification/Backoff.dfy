/** The failure backoff of src/symphony/orchestrator/retry.py. */
module Backoff {
  import opened Numbers
  import opened Options

  const BASE_RETRY_DELAY_MS := 10_000
  const CONTINUATION_DELAY_MS := 1_000

  function Pow2(n: nat): nat
  {
    if n == 0 then 1 else 2 * Pow2(n - 1)
  }

  /** Python's `int.bit_length` on a non-negative integer. */
  function BitLength(n: nat): nat
  {
    if n == 0 then 0 else 1 + BitLength(n / 2)
  }

  /** The exponent the code really shifts by. */
  function ClampedShift(attempt: int, maxBackoffMs: int): nat
  {
    Min(Max(attempt, 1) - 1, BitLength(Max(maxBackoffMs, 0) / BASE_RETRY_DELAY_MS))
  }

  function BackoffDelayMs(attempt: int, maxBackoffMs: int): int
  {
    Max(0, Min(BASE_RETRY_DELAY_MS * Pow2(ClampedShift(attempt, maxBackoffMs)), maxBackoffMs))
  }

  /** The attempt number after `attempt`; None is a first run. */
  function NextAttempt(attempt: Option<int>): int
  {
    if attempt.Some? && attempt.value >= 1 then attempt.value + 1 else 1
  }

  lemma {:induction false} BitLengthBounds(n: nat)
    ensures n < Pow2(BitLength(n))
    ensures n > 0 ==> Pow2(BitLength(n)) <= 2 * n
  {
    if n > 1 {
      BitLengthBounds(n / 2);
    }
  }

  lemma {:induction false} Pow2Monotone(m: nat, n: nat)
    requires m <= n
    ensures 1 <= Pow2(m) <= Pow2(n)
  {
    if m < n {
      Pow2Monotone(m, n - 1);
    } else if m > 0 {
      Pow2Monotone(m - 1, n - 1);
    }
  }

  /** The clamp never shows: the delay is the documented min(10000 * 2^(attempt-1), cap), floored at zero. */
  lemma BackoffIsDocumentedFormula(attempt: int, maxBackoffMs: int)
    ensures BackoffDelayMs(attempt, maxBackoffMs)
         == Max(0, Min(BASE_RETRY_DELAY_MS * Pow2(Max(attempt, 1) - 1), maxBackoffMs))
  {
    var shift := Max(attempt, 1) - 1;
    var quotient := Max(maxBackoffMs, 0) / BASE_RETRY_DELAY_MS;
    if shift > BitLength(quotient) {
      BitLengthBounds(quotient);
      Pow2Monotone(BitLength(quotient), shift);
    }
  }

  /** The shifted integer stays within twice the cap, however large the attempt. */
  lemma BackoffIntermediateIsBounded(attempt: int, maxBackoffMs: int)
    ensures BASE_RETRY_DELAY_MS * Pow2(ClampedShift(attempt, maxBackoffMs))
         <= Max(BASE_RETRY_DELAY_MS, 2 * maxBackoffMs)
  {
    var quotient := Max(maxBackoffMs, 0) / BASE_RETRY_DELAY_MS;
    BitLengthBounds(quotient);
    Pow2Monotone(ClampedShift(attempt, maxBackoffMs), BitLength(quotient));
  }

  lemma BackoffIsMonotone(attempt: int, later: int, maxBackoffMs: int)
    requires attempt <= later
    ensures BackoffDelayMs(attempt, maxBackoffMs) <= BackoffDelayMs(later, maxBackoffMs)
  {
    BackoffIsDocumentedFormula(attempt, maxBackoffMs);
    BackoffIsDocumentedFormula(later, maxBackoffMs);
    Pow2Monotone(Max(attempt, 1) - 1, Max(later, 1) - 1);
  }
}
