/**
 * The exponential-backoff retry handler (src/utils/retryHandler.js).
 *
 * The wrapped operation is given as `fn`, where `fn(k)` is how its k-th call
 * settles (counting from 0).  `Math.random()` is given as `random`, where
 * `random(k)` is the value drawn for the pause after attempt k.  The sleeps
 * are not performed: the method returns the delays it would have slept for.
 */
module Retry {
  import opened Wrappers
  import opened JsValues

  /** How one call of the wrapped operation settles. */
  datatype CallResult = Resolved(value: Js) | Rejected(error: Error)

  /**
   * How `executeWithRetry` settles.  ThrewUndefined is `throw lastError`
   * when no attempt was made, so that `lastError` is still undefined.
   */
  datatype RetryOutcome = Returned(value: Js) | Threw(error: Error) | ThrewUndefined

  function Pow2(n: nat): (r: nat)
    ensures r >= 1
  {
    if n == 0 then 1 else 2 * Pow2(n - 1)
  }

  lemma {:induction false} Pow2Add(a: nat, k: nat)
    ensures Pow2(a + k) == Pow2(a) * Pow2(k)
  {
    if k > 0 {
      Pow2Add(a, k - 1);
      calc {
        Pow2(a + k);
        2 * Pow2(a + k - 1);
        2 * (Pow2(a) * Pow2(k - 1));
        Pow2(a) * (2 * Pow2(k - 1));
        Pow2(a) * Pow2(k);
      }
    }
  }

  lemma MulPositive(x: real, y: real)
    requires x > 0.0 && y > 0.0
    ensures x * y > 0.0
  {
  }

  lemma MulNonnegative(x: real, y: real)
    requires x >= 0.0 && y >= 0.0
    ensures x * y >= 0.0
  {
  }

  /** A fraction in [0, 1) of `e` lies between 0 and `e`, excluding `e` itself. */
  lemma FractionBounds(e: real, random: real, p: real)
    requires 0.0 <= random < 1.0
    requires p == random * e
    ensures e > 0.0 ==> 0.0 <= p < e
    ensures e == 0.0 ==> p == 0.0
    ensures e < 0.0 ==> e < p <= 0.0
  {
    var q := 1.0 - random;
    assert q > 0.0;
    assert e - p == e * q;
    if e > 0.0 {
      MulPositive(e, q);
      MulNonnegative(random, e);
    } else if e < 0.0 {
      MulPositive(-e, q);
      MulNonnegative(random, -e);
      assert random * (-e) == -p;
    }
  }

  /**
   * The jitter `random * 0.3 * e` added to an exponential delay `e`: between
   * 0 and 30% of `e`, that bound excluded.
   */
  function JitterOf(e: real, random: real): (j: real)
    requires 0.0 <= random < 1.0
    ensures e > 0.0 ==> 0.0 <= j < 0.3 * e
    ensures e == 0.0 ==> j == 0.0
    ensures e < 0.0 ==> 0.3 * e < j <= 0.0
  {
    var p := random * e;
    FractionBounds(e, random, p);
    0.3 * p
  }

  class RetryHandler {
    /** The number of retries after the first attempt. */
    const maxRetries: int
    /** The base delay, in milliseconds. */
    const initialDelay: int

    constructor (maxRetries: int, initialDelay: int)
      ensures this.maxRetries == maxRetries && this.initialDelay == initialDelay
    {
      this.maxRetries := maxRetries;
      this.initialDelay := initialDelay;
    }

    /** `initialDelay * 2^attempt`, exact. */
    function ExponentialDelay(attempt: nat): (e: int)
      ensures initialDelay > 0 ==> e >= initialDelay
      ensures initialDelay == 0 ==> e == 0
      ensures initialDelay < 0 ==> e <= initialDelay
    {
      initialDelay * Pow2(attempt)
    }

    /** The random part of the delay before retry `attempt + 1`. */
    function Jitter(attempt: nat, random: real): real
      requires 0.0 <= random < 1.0
    {
      JitterOf(ExponentialDelay(attempt) as real, random)
    }

    /**
     * `calculateDelay(attempt)` for the draw `random` of `Math.random()`:
     * the exponential delay plus up to 30% of it.
     */
    function CalculateDelay(attempt: nat, random: real): (delay: real)
      requires 0.0 <= random < 1.0
      ensures initialDelay > 0 ==>
        ExponentialDelay(attempt) as real <= delay < 1.3 * ExponentialDelay(attempt) as real
      ensures initialDelay == 0 ==> delay == 0.0
      ensures initialDelay < 0 ==>
        1.3 * ExponentialDelay(attempt) as real < delay <= ExponentialDelay(attempt) as real
    {
      ExponentialDelay(attempt) as real + Jitter(attempt, random)
    }

    /** The exponential part scales by 2^k over k further attempts: it doubles at each step. */
    lemma {:induction false} ExponentialDelayGrowth(attempt: nat, k: nat)
      ensures ExponentialDelay(attempt + k) == Pow2(k) * ExponentialDelay(attempt)
      ensures ExponentialDelay(attempt + 1) == 2 * ExponentialDelay(attempt)
    {
      Pow2Add(attempt, k);
      calc {
        ExponentialDelay(attempt + k);
        initialDelay * (Pow2(attempt) * Pow2(k));
        Pow2(k) * (initialDelay * Pow2(attempt));
      }
    }

    /**
     * With a non-negative base delay, the delay before retry a+1 is at least
     * twice the delay before retry a net of its jitter, whatever both draws.
     */
    lemma DelayGrowsNetOfJitter(attempt: nat, r1: real, r2: real)
      requires initialDelay >= 0
      requires 0.0 <= r1 < 1.0 && 0.0 <= r2 < 1.0
      ensures CalculateDelay(attempt + 1, r2) >= 2.0 * (CalculateDelay(attempt, r1) - Jitter(attempt, r1))
    {
      ExponentialDelayGrowth(attempt, 1);
    }

    /**
     * `isRetryableError(error)`: an error without a response (a network
     * failure) is retryable; with a response, the server errors (5xx) are,
     * and of the client errors (4xx) only 408 Request Timeout and 429 Too
     * Many Requests.
     */
    function IsRetryableError(error: Error): (retryable: bool)
      ensures error.response.None? ==> retryable
      ensures error.response.Some? && error.response.value.status >= 500 ==> retryable
      ensures error.response.Some? && 400 <= error.response.value.status < 500 ==>
        (retryable <==> error.response.value.status in {408, 429})
      ensures error.response.Some? && error.response.value.status < 400 ==> !retryable
    {
      match error.response
      case None => true
      case Some(response) =>
        var status := response.status;
        status == 408 || status == 429 || status >= 500
    }

    /**
     * The attempt at which the loop stops, looking from attempt `from` on:
     * the first attempt that resolves, fails with a non-retryable error, or
     * is the last one (maxRetries); every attempt before it failed retryably.
     */
    function StopAttempt(fn: nat -> CallResult, from: nat): (stop: nat)
      requires from <= maxRetries
      ensures from <= stop <= maxRetries
      ensures forall j :: from <= j < stop ==> fn(j).Rejected? && IsRetryableError(fn(j).error)
      ensures fn(stop).Resolved? || stop == maxRetries || !IsRetryableError(fn(stop).error)
      decreases maxRetries - from
    {
      if fn(from).Resolved? || from == maxRetries || !IsRetryableError(fn(from).error) then from
      else StopAttempt(fn, from + 1)
    }

    /** How `executeWithRetry(fn)` settles. */
    function Outcome(fn: nat -> CallResult): RetryOutcome
    {
      if maxRetries < 0 then ThrewUndefined
      else
        match fn(StopAttempt(fn, 0))
        case Resolved(v) => Returned(v)
        case Rejected(e) => Threw(e)
    }

    /** How many times `executeWithRetry(fn)` calls `fn`. */
    function Calls(fn: nat -> CallResult): nat
    {
      if maxRetries < 0 then 0 else StopAttempt(fn, 0) + 1
    }

    /**
     * The pauses `executeWithRetry(fn)` sleeps, in order: one after every
     * call but the last, the i-th lasting `calculateDelay(i)`.
     */
    function Delays(fn: nat -> CallResult, random: nat -> real): seq<real>
      requires forall k :: 0.0 <= random(k) < 1.0
    {
      if Calls(fn) == 0 then []
      else seq(Calls(fn) - 1, (i: int) requires 0 <= i => CalculateDelay(i, random(i)))
    }

    /**
     * Looking from attempt `from`, the loop stops at the first attempt k that
     * resolves, fails non-retryably or is the last one.
     */
    lemma {:induction false} StopsAt(fn: nat -> CallResult, from: nat, k: nat)
      requires from <= k <= maxRetries
      requires forall j :: from <= j < k ==> fn(j).Rejected? && IsRetryableError(fn(j).error)
      requires fn(k).Resolved? || k == maxRetries || !IsRetryableError(fn(k).error)
      ensures StopAttempt(fn, from) == k
      decreases k - from
    {
      if from < k {
        StopsAt(fn, from + 1, k);
      }
    }

    /** A loop that stopped at attempt k made k + 1 calls and k pauses. */
    lemma StoppedAt(fn: nat -> CallResult, random: nat -> real, k: nat)
      requires forall j :: 0.0 <= random(j) < 1.0
      requires k <= maxRetries
      requires forall j :: 0 <= j < k ==> fn(j).Rejected? && IsRetryableError(fn(j).error)
      requires fn(k).Resolved? || k == maxRetries || !IsRetryableError(fn(k).error)
      ensures Calls(fn) == k + 1 && |Delays(fn, random)| == k
      ensures fn(k).Resolved? ==> Outcome(fn) == Returned(fn(k).value)
      ensures fn(k).Rejected? ==> Outcome(fn) == Threw(fn(k).error)
    {
      StopsAt(fn, 0, k);
    }

    /**
     * An operation that first resolves at attempt k <= maxRetries, after k
     * retryable failures, yields that result after exactly k + 1 calls.
     */
    lemma SucceedsAtAttempt(fn: nat -> CallResult, random: nat -> real, k: nat)
      requires forall j :: 0.0 <= random(j) < 1.0
      requires k <= maxRetries
      requires forall j :: 0 <= j < k ==> fn(j).Rejected? && IsRetryableError(fn(j).error)
      requires fn(k).Resolved?
      ensures Outcome(fn) == Returned(fn(k).value)
      ensures Calls(fn) == k + 1 && |Delays(fn, random)| == k
    {
      StoppedAt(fn, random, k);
    }

    /**
     * An operation that always fails retryably is called maxRetries + 1
     * times, and the error thrown is the one of the last call.
     */
    lemma ExhaustsRetries(fn: nat -> CallResult, random: nat -> real)
      requires forall j :: 0.0 <= random(j) < 1.0
      requires maxRetries >= 0
      requires forall j :: 0 <= j <= maxRetries ==> fn(j).Rejected? && IsRetryableError(fn(j).error)
      ensures Outcome(fn) == Threw(fn(maxRetries).error)
      ensures Calls(fn) == maxRetries + 1 && |Delays(fn, random)| == maxRetries
    {
      StoppedAt(fn, random, maxRetries);
    }

    /**
     * A non-retryable failure at attempt k is rethrown at once: k + 1 calls,
     * and no pause after the failing one.
     */
    lemma FatalErrorRethrown(fn: nat -> CallResult, random: nat -> real, k: nat)
      requires forall j :: 0.0 <= random(j) < 1.0
      requires k <= maxRetries
      requires forall j :: 0 <= j < k ==> fn(j).Rejected? && IsRetryableError(fn(j).error)
      requires fn(k).Rejected? && !IsRetryableError(fn(k).error)
      ensures Outcome(fn) == Threw(fn(k).error)
      ensures Calls(fn) == k + 1 && |Delays(fn, random)| == k
    {
      StoppedAt(fn, random, k);
    }

    /**
     * Every pause follows a retryable failure of an attempt that was not the
     * last allowed one.
     */
    lemma PausesFollowRetryableFailures(fn: nat -> CallResult, random: nat -> real)
      requires forall j :: 0.0 <= random(j) < 1.0
      ensures |Delays(fn, random)| == if Calls(fn) == 0 then 0 else Calls(fn) - 1
      ensures forall i :: 0 <= i < |Delays(fn, random)| ==>
        i < maxRetries && fn(i).Rejected? && IsRetryableError(fn(i).error)
    {
    }

    /**
     * `executeWithRetry(fn)`: calls `fn` for attempts 0..maxRetries until a
     * call resolves, a call fails with a non-retryable error, or the last
     * attempt fails; pauses `calculateDelay(attempt)` after each retryable
     * failure that is not the last attempt.  Returns how it settles, the
     * number of calls and the pauses.
     */
    method ExecuteWithRetry(fn: nat -> CallResult, random: nat -> real)
      returns (outcome: RetryOutcome, calls: nat, delays: seq<real>)
      requires forall k :: 0.0 <= random(k) < 1.0
      ensures outcome == Outcome(fn)
      ensures calls == Calls(fn)
      ensures delays == Delays(fn, random)
    {
      var lastError: Option<Error> := None;
      calls, delays := 0, [];
      var attempt: nat := 0;
      while attempt <= maxRetries
        invariant attempt <= maxRetries || (maxRetries < 0 && attempt == 0)
        invariant calls == attempt && |delays| == attempt
        invariant forall i :: 0 <= i < attempt ==> delays[i] == CalculateDelay(i, random(i))
        invariant forall j :: 0 <= j < attempt ==> fn(j).Rejected? && IsRetryableError(fn(j).error)
        invariant attempt == 0 ==> lastError.None?
        invariant attempt > 0 ==> lastError == Some(fn(attempt - 1).error)
      {
        var result := fn(attempt);
        calls := calls + 1;
        if result.Resolved? {
          StoppedAt(fn, random, attempt);
          outcome := Returned(result.value);
          return;
        }
        lastError := Some(result.error);
        if attempt == maxRetries {
          StoppedAt(fn, random, attempt);
          break;
        }
        if !IsRetryableError(result.error) {
          StoppedAt(fn, random, attempt);
          outcome := Threw(result.error);
          return;
        }
        delays := delays + [CalculateDelay(attempt, random(attempt))];
        attempt := attempt + 1;
      }
      outcome := if lastError.Some? then Threw(lastError.value) else ThrewUndefined;
    }
  }
}
