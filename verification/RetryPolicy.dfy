/** The waits between the attempts of a run (apps/execution/retry_policy.py). */
module RetryPolicy {
  import opened Protocol

  const BASE_BACKOFF_SECONDS: nat := 10
  const MAX_BACKOFF_SECONDS: nat := 300
  const JITTER_FRACTION := 0.25

  function Pow2(n: nat): nat {
    if n == 0 then 1 else 2 * Pow2(n - 1)
  }

  function Exponential(retryNumber: nat): nat {
    var grown := BASE_BACKOFF_SECONDS * Pow2(retryNumber);
    if grown < MAX_BACKOFF_SECONDS then grown else MAX_BACKOFF_SECONDS
  }

  /** The largest jitter of a wait. */
  function JitterLimit(retryNumber: nat): real {
    Exponential(retryNumber) as real * JITTER_FRACTION
  }

  /** `random.uniform(0, limit)` draws any number between 0 and the limit. */
  predicate IsDraw(retryNumber: nat, jitter: real) {
    0.0 <= jitter <= JitterLimit(retryNumber)
  }

  function ComputeBackoffSeconds(retryNumber: nat, jitter: real): real
    requires IsDraw(retryNumber, jitter)
  {
    Exponential(retryNumber) as real + jitter
  }

  lemma {:induction false} ExponentialGrows(n: nat)
    ensures BASE_BACKOFF_SECONDS <= Exponential(n) <= Exponential(n + 1) <= MAX_BACKOFF_SECONDS
    ensures Exponential(n + 1) < MAX_BACKOFF_SECONDS ==> Exponential(n + 1) == 2 * Exponential(n)
  {
    if n > 0 {
      ExponentialGrows(n - 1);
    }
  }

  /** The exponential part doubles from ten seconds up to five minutes. */
  lemma {:induction false} ExponentialValues(n: nat)
    ensures Exponential(n) == if n == 0 then 10 else if n == 1 then 20 else if n == 2 then 40 else if n == 3 then 80
                              else if n == 4 then 160 else 300
  {
    if n <= 5 {
      assert Pow2(1) == 2 && Pow2(2) == 4 && Pow2(3) == 8 && Pow2(4) == 16 && Pow2(5) == 32;
    } else {
      ExponentialValues(n - 1);
      ExponentialGrows(n - 1);
    }
  }

  /** A wait is at least its exponential part and at most a quarter more, which a draw may come to; it
      never exceeds 375 seconds. */
  lemma {:induction false} BackoffBounds(n: nat, jitter: real)
    requires IsDraw(n, jitter)
    ensures Exponential(n) as real <= ComputeBackoffSeconds(n, jitter) <= 1.25 * Exponential(n) as real
    ensures 10.0 <= ComputeBackoffSeconds(n, jitter) <= 375.0
    ensures n >= 5 ==> 300.0 <= ComputeBackoffSeconds(n, jitter)
    ensures IsDraw(n, 0.25 * Exponential(n) as real)
  {
    ExponentialGrows(n);
    ExponentialValues(n);
  }

  /** Below the cap each wait is longer than the one before, whatever the jitter. */
  lemma {:induction false} WaitsIncrease(n: nat, jitter: real, next: real)
    requires Exponential(n + 1) < MAX_BACKOFF_SECONDS && IsDraw(n, jitter) && IsDraw(n + 1, next)
    ensures ComputeBackoffSeconds(n, jitter) < ComputeBackoffSeconds(n + 1, next)
  {
    ExponentialGrows(n);
    BackoffBounds(n, jitter);
    BackoffBounds(n + 1, next);
  }

  function TotalWait(retries: nat, draws: nat -> real): real
    requires forall k | 0 <= k < retries :: IsDraw(k, draws(k))
  {
    if retries == 0 then 0.0 else TotalWait(retries - 1, draws) + ComputeBackoffSeconds(retries - 1, draws(retries - 1))
  }

  /** The retries of one run wait between 150 and 187.5 seconds in all. */
  lemma {:induction false} ChainWait(draws: nat -> real)
    requires forall k | 0 <= k < MAX_RETRIES :: IsDraw(k, draws(k))
    ensures 150.0 <= TotalWait(MAX_RETRIES, draws) <= 187.5
  {
    assert Exponential(0) == 10 && Exponential(1) == 20 && Exponential(2) == 40 && Exponential(3) == 80;
    BackoffBounds(0, draws(0));
    BackoffBounds(1, draws(1));
    BackoffBounds(2, draws(2));
    BackoffBounds(3, draws(3));
    assert TotalWait(1, draws) == ComputeBackoffSeconds(0, draws(0));
    assert TotalWait(2, draws) == TotalWait(1, draws) + ComputeBackoffSeconds(1, draws(1));
    assert TotalWait(3, draws) == TotalWait(2, draws) + ComputeBackoffSeconds(2, draws(2));
  }
}
