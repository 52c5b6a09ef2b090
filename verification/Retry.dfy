/**
 `with_retries`: attempts, backoff and what is returned. An attempt's outcome is a function of its number;
 sleeping is recorded as a list of delays in milliseconds.
 */
module Retry {
  import opened Wrappers
  import opened Sequences

  datatype ProviderError =
    | Transport(message: string)
    | Timeout
    | StreamIdleTimeout
    | RateLimit
    | Status(status: nat, body: string)
    | MalformedResponse(message: string)
    | StreamingUnsupported
    | NoMockResponse
    | Unsupported(message: string)

  function IsRetryable(error: ProviderError): bool {
    match error
    case Transport(_) | Timeout | StreamIdleTimeout | RateLimit => true
    case Status(status, _) => status == 429 || status >= 500
    case _ => false
  }

  /** Failures of the connection, rate limits and server errors; never what the provider said or cannot do. */
  lemma RetryableIff(error: ProviderError)
    ensures IsRetryable(error) <==>
            || error.Transport? || error in {Timeout, StreamIdleTimeout, RateLimit}
            || (error.Status? && (error.status == 429 || error.status > 499))
  {
  }

  type Attempt<T> = Result<T, ProviderError>

  /** Another attempt may follow this outcome. */
  predicate Retryable<T>(outcome: Attempt<T>) {
    outcome.Failure? && IsRetryable(outcome.error)
  }

  function Pow2(n: nat): nat {
    if n == 0 then 1 else 2 * Pow2(n - 1)
  }

  const U64_LIMIT := 0x1_0000_0000_0000_0000

  function Uncapped(attempt: nat): nat {
    100 * Pow2(attempt)
  }

  function Delay(attempt: nat): nat {
    if Uncapped(attempt) < 2000 then Uncapped(attempt) else 2000
  }

  function Delays(n: nat): (r: seq<int>)
    ensures |r| == n
  {
    seq(n, k requires 0 <= k => Delay(k))
  }

  /** A value or error of the last attempt made, or arithmetic overflow in the backoff after one. */
  datatype Ending<T> = Returned(outcome: Attempt<T>) | Overflowed(attempt: nat)

  /** The backoff after attempt 58 is the first that does not fit in 64 bits. */
  const LAST_SAFE := 57

  lemma {:induction false} Pow2Grows(m: nat, n: nat)
    requires m <= n
    ensures Pow2(m) <= Pow2(n)
    decreases n
  {
    if m < n {
      Pow2Grows(m, n - 1);
    }
  }

  lemma Pow2Of58()
    ensures Pow2(58) == 0x400_0000_0000_0000
  {
    assert Pow2(8) == 0x100;
    assert Pow2(16) == 0x1_0000;
    assert Pow2(24) == 0x100_0000;
    assert Pow2(32) == 0x1_0000_0000;
    assert Pow2(40) == 0x100_0000_0000;
    assert Pow2(48) == 0x1_0000_0000_0000;
    assert Pow2(56) == 0x100_0000_0000_0000;
  }

  /** `100 * (1u64 << attempt)` fits exactly for the first 58 attempts. */
  lemma FitsIff(attempt: nat)
    ensures Uncapped(attempt) < U64_LIMIT <==> attempt <= LAST_SAFE
  {
    Pow2Of58();
    assert Pow2(58) == 2 * Pow2(57);
    if attempt <= LAST_SAFE {
      Pow2Grows(attempt, LAST_SAFE);
    } else {
      Pow2Grows(58, attempt);
    }
  }

  /**
   The first attempt that succeeds, fails for good or is the last one ends the loop, and its outcome is
   what is returned; before it, every attempt failed retryably and was slept on.
   */
  method WithRetries<T>(maxRetries: nat, op: nat -> Attempt<T>) returns (r: Ending<T>, sleeps: seq<int>)
    requires maxRetries < 0x100
    ensures r.Returned? ==>
              && |sleeps| <= maxRetries && r.outcome == op(|sleeps|)
              && (|sleeps| == maxRetries || !Retryable(op(|sleeps|)))
    ensures r.Overflowed? ==> |sleeps| == r.attempt == LAST_SAFE + 1 && Retryable(op(r.attempt))
    ensures r.Overflowed? <==> maxRetries > LAST_SAFE + 1 && forall k | 0 <= k <= LAST_SAFE + 1 :: Retryable(op(k))
    ensures forall k | 0 <= k < |sleeps| :: Retryable(op(k))
    ensures sleeps == Delays(|sleeps|)
  {
    var maxAttempts := maxRetries + 1;
    var lastError := Transport("no attempt made");
    sleeps := [];
    for attempt := 0 to maxAttempts
      invariant |sleeps| == attempt <= LAST_SAFE + 1
      invariant attempt <= maxRetries
      invariant forall k | 0 <= k < attempt :: Retryable(op(k))
      invariant sleeps == Delays(attempt)
    {
      var outcome := op(attempt);
      if outcome.Success? || !IsRetryable(outcome.error) || attempt + 1 == maxAttempts {
        r := Returned(outcome);
        return;
      }
      lastError := outcome.error;
      FitsIff(attempt);
      if Uncapped(attempt) >= U64_LIMIT {
        r := Overflowed(attempt);
        return;
      }
      sleeps := sleeps + [Delay(attempt)];
    }
    assert false;
  }

  lemma DelayIsCapped(n: nat)
    ensures n < 5 ==> Delay(n) == 100 * Pow2(n)
    ensures n >= 5 ==> Delay(n) == 2000
  {
    assert Pow2(4) == 16 && Pow2(5) == 32;
    if n < 5 {
      Pow2Grows(n, 4);
    } else {
      Pow2Grows(5, n);
    }
  }

  /** Doubling from 100 ms five times, then 2 s each: the total time slept. */
  lemma {:induction false} TotalDelay(n: nat)
    ensures Sum(Delays(n)) == if n <= 5 then 100 * (Pow2(n) - 1) else 3100 + 2000 * (n - 5)
  {
    if n > 0 {
      TotalDelay(n - 1);
      assert Delays(n) == Delays(n - 1) + [Delay(n - 1)];
      SumPush(Delays(n - 1), Delay(n - 1));
      DelayIsCapped(n - 1);
      assert Pow2(5) == 32;
    }
  }
}
