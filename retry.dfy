/**
 * Retrying with exponential backoff (utils/retry.py): up to max_retries + 1 attempts; an error
 * whose text names a rate limit or an overload is retried after a sleep that grows by
 * `backoff_factor` each time; any other error, or the last one, is re-raised.
 */
module Retry {
  import Text

  /** What one call of the wrapped function does: return a value or raise an error with this text. */
  datatype Attempt<T> = Returned(value: T) | Raised(message: string)

  /** How the retry loop ends; with max_retries < 0 the loop body never runs and None is returned. */
  datatype Outcome<T> = Value(value: T) | Raise(message: string) | ReturnedNone

  /** The error text signals a rate limit (HTTP 429). */
  predicate IsRateLimit(e: string) {
    Text.Contains(e, "429") || Text.Contains(e, "ResourceExhausted") || Text.Contains(e, "Too Many Requests")
  }

  /** The error text signals an overloaded model (HTTP 503). */
  predicate IsOverloaded(e: string) {
    Text.Contains(e, "503") || Text.Contains(e, "Overloaded") || Text.Contains(e, "Service Unavailable")
  }

  predicate Retryable(e: string) {
    IsRateLimit(e) || IsOverloaded(e)
  }

  /** b to the power k. */
  function Pow(b: real, k: nat): real {
    if k == 0 then 1.0 else b * Pow(b, k - 1)
  }

  /** The delay before the (k+1)-th retry: `delay *= backoff_factor` applied k times. */
  function Delay(initialDelay: real, backoffFactor: real, k: nat): real {
    if k == 0 then initialDelay else Delay(initialDelay, backoffFactor, k - 1) * backoffFactor
  }

  /**
   * `retry_with_backoff`. `attempt(i)` is what the i-th call (0-based) of the wrapped function
   * does; the method reports the outcome, how many calls were made and the sleeps in order.
   */
  method RetryWithBackoff<T>(attempt: nat -> Attempt<T>, maxRetries: int, initialDelay: real, backoffFactor: real)
    returns (outcome: Outcome<T>, calls: nat, sleeps: seq<real>)
    ensures maxRetries < 0 <==> calls == 0
    ensures calls == 0 ==> outcome == ReturnedNone && sleeps == []
    ensures calls <= maxRetries + 1 || calls == 0
    ensures calls > 0 ==> |sleeps| == calls - 1
    ensures forall k | 0 <= k < |sleeps| :: sleeps[k] == Delay(initialDelay, backoffFactor, k)
    ensures forall k | 0 <= k < |sleeps| :: attempt(k).Raised? && Retryable(attempt(k).message)
    ensures calls > 0 && attempt(calls - 1).Returned? ==> outcome == Value(attempt(calls - 1).value)
    ensures calls > 0 && attempt(calls - 1).Raised? ==>
      outcome == Raise(attempt(calls - 1).message)
      && (!Retryable(attempt(calls - 1).message) || calls == maxRetries + 1)
    ensures maxRetries >= 0 && (forall k | 0 <= k <= maxRetries :: attempt(k).Raised? && Retryable(attempt(k).message)) ==>
      calls == maxRetries + 1 && |sleeps| == maxRetries && outcome == Raise(attempt(maxRetries).message)
  {
    var delay := initialDelay;
    sleeps := [];
    calls := 0;
    var i := 0;
    while i < maxRetries + 1
      invariant 0 <= i && (i == 0 || i <= maxRetries)
      invariant calls == i && |sleeps| == i
      invariant delay == Delay(initialDelay, backoffFactor, i)
      invariant forall k | 0 <= k < i :: sleeps[k] == Delay(initialDelay, backoffFactor, k)
      invariant forall k | 0 <= k < i :: attempt(k).Raised? && Retryable(attempt(k).message)
      decreases maxRetries + 1 - i
    {
      var result := attempt(i);
      calls := calls + 1;
      if result.Returned? {
        return Value(result.value), calls, sleeps;
      }
      var errorStr := result.message;
      var isRateLimit := IsRateLimit(errorStr);
      var isOverloaded := IsOverloaded(errorStr);
      if !((isRateLimit || isOverloaded) && i < maxRetries) {
        return Raise(errorStr), calls, sleeps;
      }
      sleeps := sleeps + [delay];
      delay := delay * backoffFactor;
      i := i + 1;
    }
    outcome := ReturnedNone;
  }

  /** The sleeps form a geometric sequence: the k-th lasts initial_delay * backoff_factor^k. */
  lemma {:induction false} DelayIsGeometric(initialDelay: real, backoffFactor: real, k: nat)
    ensures Delay(initialDelay, backoffFactor, k) == initialDelay * Pow(backoffFactor, k)
  {
    if k > 0 {
      DelayIsGeometric(initialDelay, backoffFactor, k - 1);
      var p := Pow(backoffFactor, k - 1);
      assert Pow(backoffFactor, k) == backoffFactor * p;
      assert (initialDelay * p) * backoffFactor == initialDelay * (backoffFactor * p);
    }
  }

  /** A quota error is retried; an error that names neither condition is not. */
  lemma RetryableExamples()
    ensures Retryable("429 ResourceExhausted")
    ensures Retryable("model is Overloaded")
    ensures !Retryable("KeyError")
  {
    assert Text.OccursAt("429 ResourceExhausted", "429", 0);
    assert Text.OccursAt("model is Overloaded", "Overloaded", 9);
    KeyErrorNotRetryable();
  }

  lemma KeyErrorNotRetryable()
    ensures !Retryable("KeyError")
  {
    var s := "KeyError";
    NotRateLimit(s);
    NotOverloaded(s);
  }

  lemma NotRateLimit(s: string)
    requires forall i | 0 <= i < |s| :: s[i] != '4' && s[i] != 'R' && s[i] != 'T'
    ensures !IsRateLimit(s)
  {
    Text.NotContainsFirst(s, "429");
    Text.NotContainsFirst(s, "ResourceExhausted");
    Text.NotContainsFirst(s, "Too Many Requests");
  }

  lemma NotOverloaded(s: string)
    requires forall i | 0 <= i < |s| :: s[i] != '5' && s[i] != 'O' && s[i] != 'S'
    ensures !IsOverloaded(s)
  {
    Text.NotContainsFirst(s, "503");
    Text.NotContainsFirst(s, "Overloaded");
    Text.NotContainsFirst(s, "Service Unavailable");
  }
}
