/** Retry policy of the client library (brobot_client/retry.py): the capped
    exponential delay, the default retry predicate, and the attempt loop
    shared by the blocking and the asynchronous wrapper. Sleeping is
    recorded as a trace of delays, and each `random.random()` draw is an
    input. */
module Retry {
  import opened Basics
  import opened Exceptions

  /** A value of `random.random()`: in [0, 1). */
  type Draw = r: real | 0.0 <= r < 1.0

  /** `2 ** n` for a non-negative attempt number. */
  function Pow2(n: nat): (p: real)
    ensures p >= 1.0
  {
    if n == 0 then 1.0 else 2.0 * Pow2(n - 1)
  }

  lemma {:induction false} Pow2Monotone(a: nat, b: nat)
    requires a <= b
    ensures Pow2(a) <= Pow2(b)
  {
    if a < b {
      Pow2Monotone(a, b - 1);
    }
  }

  /** `min(base_delay * 2 ** attempt, max_delay)`. */
  function Capped(attempt: nat, baseDelay: real, maxDelay: real): (d: real)
    ensures d <= maxDelay && d <= baseDelay * Pow2(attempt)
    ensures d == maxDelay || d == baseDelay * Pow2(attempt)
  {
    var grown := baseDelay * Pow2(attempt);
    if grown <= maxDelay then grown else maxDelay
  }

  /** `exponential_backoff(attempt, base_delay, max_delay, jitter)` with
      `r` the value `random.random()` returned. */
  function ExponentialBackoff(attempt: nat, baseDelay: real, maxDelay: real, jitter: bool, r: Draw): (d: real)
    ensures !jitter ==> d <= maxDelay && d <= baseDelay * Pow2(attempt)
    ensures !jitter ==> d == maxDelay || d == baseDelay * Pow2(attempt)
    ensures jitter && 0.0 <= Capped(attempt, baseDelay, maxDelay) ==>
              Capped(attempt, baseDelay, maxDelay) / 2.0 <= d <= Capped(attempt, baseDelay, maxDelay)
    ensures jitter && 0.0 < Capped(attempt, baseDelay, maxDelay) ==> d < Capped(attempt, baseDelay, maxDelay)
  {
    var c := Capped(attempt, baseDelay, maxDelay);
    if jitter then
      JitterBounds(c, r);
      c * (0.5 + r * 0.5)
    else c
  }

  /** Scaling a delay by a factor in [0.5, 1). */
  lemma JitterBounds(c: real, r: Draw)
    ensures 0.0 <= c ==> c / 2.0 <= c * (0.5 + r * 0.5) <= c
    ensures 0.0 < c ==> c * (0.5 + r * 0.5) < c
  {
    var m := 0.5 + r * 0.5;
    assert 0.5 <= m < 1.0;
    if 0.0 < c {
      assert c * m - c / 2.0 == c * (m - 0.5);
      assert c - c * m == c * (1.0 - m);
    }
  }

  /** Without jitter the delay never decreases from one attempt to the next. */
  lemma BackoffMonotone(a: nat, b: nat, baseDelay: real, maxDelay: real)
    requires a <= b && 0.0 <= baseDelay
    ensures ExponentialBackoff(a, baseDelay, maxDelay, false, 0.0) <= ExponentialBackoff(b, baseDelay, maxDelay, false, 0.0)
  {
    Pow2Monotone(a, b);
    assert baseDelay * Pow2(a) <= baseDelay * Pow2(b);
  }

  /** Once `base_delay * 2 ** attempt` reaches `max_delay`, every later
      un-jittered delay is exactly `max_delay`. */
  lemma BackoffSaturates(a: nat, b: nat, baseDelay: real, maxDelay: real)
    requires a <= b && 0.0 <= baseDelay
    requires baseDelay * Pow2(a) >= maxDelay
    ensures ExponentialBackoff(b, baseDelay, maxDelay, false, 0.0) == maxDelay
  {
    Pow2Monotone(a, b);
    assert baseDelay * Pow2(a) <= baseDelay * Pow2(b);
    assert baseDelay * Pow2(b) >= maxDelay;
  }

  /** With non-negative settings a jittered delay lies in [0, max_delay]. */
  lemma JitteredWithinMax(attempt: nat, baseDelay: real, maxDelay: real, r: Draw)
    requires 0.0 <= baseDelay && 0.0 <= maxDelay
    ensures 0.0 <= ExponentialBackoff(attempt, baseDelay, maxDelay, true, r) <= maxDelay
  {
    assert 0.0 <= baseDelay * Pow2(attempt);
  }

  /** `should_retry(e)`: only connection and timeout errors are retried. */
  function ShouldRetry(e: Error): (retry: bool)
    ensures retry <==> e.BrobotConnectionError? || e.BrobotTimeoutError?
  {
    IsInstance(e, ConnectionErrorClass) || IsInstance(e, TimeoutErrorClass)
  }

  /** One call of the wrapped operation: it returns a value or raises. */
  datatype Call<T> = Returned(value: T) | Raised(error: Error)

  /** How a wrapped call ends: the operation's value, the re-raised error,
      or `None` when no attempt was made. */
  datatype Verdict<T> = Value(value: T) | Reraised(error: Error) | NoValue

  /** The settings one `retry(...)` decorator closes over. */
  datatype Policy = Policy(
    maxAttempts: int,
    baseDelay: real,
    maxDelay: real,
    caught: seq<ErrorClass>,
    retryCondition: Error -> bool)

  const DefaultMaxAttempts: int := 3
  const DefaultBaseDelay: real := 1.0
  const DefaultMaxDelay: real := 60.0

  /** `retry(max_attempts, base_delay, max_delay, exceptions,
      retry_condition)`: omitted exceptions catch every Exception, and an
      omitted condition is `should_retry`. */
  function MakePolicy(maxAttempts: int, baseDelay: real, maxDelay: real,
                      exceptions: Option<seq<ErrorClass>>, retryCondition: Option<Error -> bool>): (p: Policy)
    ensures p.maxAttempts == maxAttempts && p.baseDelay == baseDelay && p.maxDelay == maxDelay
    ensures exceptions.None? ==> forall e :: Catches(p, e)
    ensures exceptions.Some? ==> p.caught == exceptions.value
    ensures retryCondition.None? ==> forall e :: p.retryCondition(e) == ShouldRetry(e)
    ensures retryCondition.Some? ==> forall e :: p.retryCondition(e) == retryCondition.value(e)
  {
    var caught := if exceptions.None? then [ExceptionClass] else exceptions.value;
    var cond := if retryCondition.None? then ShouldRetry else retryCondition.value;
    var p := Policy(maxAttempts, baseDelay, maxDelay, caught, cond);
    p
  }

  /** `except exceptions as e`: the error is an instance of a caught class. */
  predicate Catches(p: Policy, e: Error) {
    IsInstanceOfAny(e, p.caught)
  }

  /** The error is caught and the retry condition accepts it. */
  predicate Retryable(p: Policy, e: Error) {
    Catches(p, e) && p.retryCondition(e)
  }

  /** What a wrapped call does from 0-based attempt `attempt` on: its
      verdict, how many times it calls the operation, and the delays it
      sleeps, in order. */
  datatype Run<T> = Run(verdict: Verdict<T>, calls: nat, sleeps: seq<real>)

  /** Reference definition of the attempt loop, one attempt per level. */
  function RetryFrom<T>(p: Policy, op: nat -> Call<T>, draw: nat -> Draw, attempt: nat): (run: Run<T>)
    ensures run.calls == 0 <==> p.maxAttempts <= attempt
    ensures run.verdict.NoValue? <==> run.calls == 0
    ensures run.calls > 0 ==> attempt + run.calls <= p.maxAttempts
    ensures run.calls > 0 ==> |run.sleeps| == run.calls - 1
    ensures run.calls == 0 ==> run.sleeps == []
    decreases if attempt < p.maxAttempts then p.maxAttempts - attempt else 0
  {
    if p.maxAttempts <= attempt then Run(NoValue, 0, [])
    else match op(attempt)
      case Returned(v) => Run(Value(v), 1, [])
      case Raised(e) =>
        if !Retryable(p, e) || attempt == p.maxAttempts - 1 then
          Run(Reraised(e), 1, [])
        else
          var rest := RetryFrom(p, op, draw, attempt + 1);
          var delay := ExponentialBackoff(attempt, p.baseDelay, p.maxDelay, true, draw(attempt));
          Run(rest.verdict, rest.calls + 1, [delay] + rest.sleeps)
  }

  /** One level of RetryFrom: what a single attempt decides. */
  lemma RetryStep<T>(p: Policy, op: nat -> Call<T>, draw: nat -> Draw, attempt: nat)
    requires attempt < p.maxAttempts
    ensures op(attempt).Returned? ==> RetryFrom(p, op, draw, attempt) == Run(Value(op(attempt).value), 1, [])
    ensures op(attempt).Raised? && (!Retryable(p, op(attempt).error) || attempt == p.maxAttempts - 1) ==>
              RetryFrom(p, op, draw, attempt) == Run(Reraised(op(attempt).error), 1, [])
    ensures op(attempt).Raised? && Retryable(p, op(attempt).error) && attempt < p.maxAttempts - 1 ==>
              var rest := RetryFrom(p, op, draw, attempt + 1);
              RetryFrom(p, op, draw, attempt) ==
                Run(rest.verdict, rest.calls + 1, [ExponentialBackoff(attempt, p.baseDelay, p.maxDelay, true, draw(attempt))] + rest.sleeps)
  {
  }

  /** The delay slept after attempt i is the jittered backoff of attempt
      i, drawn with `draw(i)`. */
  lemma {:induction false} SleepsAreBackoffs<T>(p: Policy, op: nat -> Call<T>, draw: nat -> Draw, attempt: nat)
    ensures forall i :: 0 <= i < |RetryFrom(p, op, draw, attempt).sleeps| ==>
              RetryFrom(p, op, draw, attempt).sleeps[i] == ExponentialBackoff(attempt + i, p.baseDelay, p.maxDelay, true, draw(attempt + i))
    decreases if attempt < p.maxAttempts then p.maxAttempts - attempt else 0
  {
    if attempt < p.maxAttempts {
      RetryStep(p, op, draw, attempt);
      if op(attempt).Raised? && Retryable(p, op(attempt).error) && attempt < p.maxAttempts - 1 {
        SleepsAreBackoffs(p, op, draw, attempt + 1);
        var s := RetryFrom(p, op, draw, attempt).sleeps;
        var rest := RetryFrom(p, op, draw, attempt + 1).sleeps;
        assert s == [ExponentialBackoff(attempt, p.baseDelay, p.maxDelay, true, draw(attempt))] + rest;
        forall i | 1 <= i < |s|
          ensures s[i] == ExponentialBackoff(attempt + i, p.baseDelay, p.maxDelay, true, draw(attempt + i))
        {
          assert s[i] == rest[i - 1];
        }
      }
    }
  }

  lemma ConcatAssoc<X>(a: seq<X>, b: seq<X>, c: seq<X>)
    ensures a + (b + c) == (a + b) + c
  {
  }

  /** `sync_wrapper` / `async_wrapper`: the decorated call. `op(i)` is what
      the i-th call of the operation does and `draw(i)` the random draw
      used for the delay after it. */
  method RetryLoop<T(==)>(p: Policy, op: nat -> Call<T>, draw: nat -> Draw)
    returns (verdict: Verdict<T>, calls: nat, sleeps: seq<real>)
    ensures verdict == RetryFrom(p, op, draw, 0).verdict
    ensures calls == RetryFrom(p, op, draw, 0).calls
    ensures sleeps == RetryFrom(p, op, draw, 0).sleeps
    ensures calls <= if p.maxAttempts < 0 then 0 else p.maxAttempts
  {
    ghost var spec := RetryFrom(p, op, draw, 0);
    verdict, calls, sleeps := NoValue, 0, [];
    var attempt: nat := 0;
    while attempt < p.maxAttempts
      invariant calls == attempt == |sleeps|
      invariant attempt == 0 || attempt < p.maxAttempts
      invariant spec.verdict == RetryFrom(p, op, draw, attempt).verdict
      invariant spec.calls == attempt + RetryFrom(p, op, draw, attempt).calls
      invariant spec.sleeps == sleeps + RetryFrom(p, op, draw, attempt).sleeps
    {
      RetryStep(p, op, draw, attempt);
      calls := calls + 1;
      match op(attempt)
      case Returned(v) =>
        verdict := Value(v);
        return;
      case Raised(e) =>
        if !Retryable(p, e) || attempt == p.maxAttempts - 1 {
          verdict := Reraised(e);
          return;
        }
        var delay := ExponentialBackoff(attempt, p.baseDelay, p.maxDelay, true, draw(attempt));
        ConcatAssoc(sleeps, [delay], RetryFrom(p, op, draw, attempt + 1).sleeps);
        sleeps := sleeps + [delay];
        attempt := attempt + 1;
    }
  }

  /** An operation that keeps raising retryable errors is called exactly
      `max_attempts` times (counted from `attempt`), sleeps in between,
      and the last error is re-raised. */
  lemma {:induction false} ExhaustsAttempts<T>(p: Policy, op: nat -> Call<T>, draw: nat -> Draw, attempt: nat)
    requires attempt < p.maxAttempts
    requires forall i :: attempt <= i < p.maxAttempts ==> op(i).Raised? && Retryable(p, op(i).error)
    ensures RetryFrom(p, op, draw, attempt).verdict == Reraised(op(p.maxAttempts - 1).error)
    ensures RetryFrom(p, op, draw, attempt).calls == p.maxAttempts - attempt
    ensures |RetryFrom(p, op, draw, attempt).sleeps| == p.maxAttempts - attempt - 1
    decreases p.maxAttempts - attempt
  {
    if attempt < p.maxAttempts - 1 {
      ExhaustsAttempts(p, op, draw, attempt + 1);
    }
  }

  /** An operation that first succeeds on call k (counted from 1, after
      k-1 retryable errors) yields its value after exactly k calls and k-1
      sleeps, the one before call i+1 being `exponential_backoff(i)`. */
  lemma {:induction false} SucceedsOnCall<T>(p: Policy, op: nat -> Call<T>, draw: nat -> Draw, attempt: nat, k: nat)
    requires attempt < k <= p.maxAttempts
    requires forall i :: attempt <= i < k - 1 ==> op(i).Raised? && Retryable(p, op(i).error)
    requires op(k - 1).Returned?
    ensures RetryFrom(p, op, draw, attempt).verdict == Value(op(k - 1).value)
    ensures RetryFrom(p, op, draw, attempt).calls == k - attempt
    ensures |RetryFrom(p, op, draw, attempt).sleeps| == k - attempt - 1
    decreases k - attempt
  {
    if attempt < k - 1 {
      SucceedsOnCall(p, op, draw, attempt + 1, k);
    }
  }

  /** An error that is not caught, or that the retry condition rejects,
      ends the call at once: one call, no sleep, the same error. */
  lemma StopsOnRejectedError<T>(p: Policy, op: nat -> Call<T>, draw: nat -> Draw)
    requires 0 < p.maxAttempts
    requires op(0).Raised? && !Retryable(p, op(0).error)
    ensures RetryFrom(p, op, draw, 0) == Run(Reraised(op(0).error), 1, [])
  {
  }

  /** With `max_attempts <= 0` the operation is never called and the
      wrapper returns None. */
  lemma NoAttempts<T>(p: Policy, op: nat -> Call<T>, draw: nat -> Draw)
    requires p.maxAttempts <= 0
    ensures RetryFrom(p, op, draw, 0) == Run(NoValue, 0, [])
  {
  }

  /** Every delay the loop sleeps is at most `max_delay` when the settings
      are non-negative. */
  lemma SleepsWithinMax<T>(p: Policy, op: nat -> Call<T>, draw: nat -> Draw)
    requires 0.0 <= p.baseDelay && 0.0 <= p.maxDelay
    ensures forall d :: d in RetryFrom(p, op, draw, 0).sleeps ==> 0.0 <= d <= p.maxDelay
  {
    SleepsAreBackoffs(p, op, draw, 0);
    var s := RetryFrom(p, op, draw, 0).sleeps;
    forall d | d in s
      ensures 0.0 <= d <= p.maxDelay
    {
      var i :| 0 <= i < |s| && s[i] == d;
      JitteredWithinMax(i, p.baseDelay, p.maxDelay, draw(i));
    }
  }

  /** Three connection failures followed by a success: with three
      attempts the third failure is re-raised and the fourth call is never
      made; with four attempts the call succeeds on the fourth. */
  lemma ThreeFailuresThenSuccess<T>(op: nat -> Call<T>, draw: nat -> Draw, failure: Error)
    requires failure.BrobotConnectionError?
    requires forall i :: i < 3 ==> op(i) == Raised(failure)
    requires op(3).Returned?
    ensures RetryFrom(MakePolicy(3, 1.0, 60.0, None, None), op, draw, 0) ==
            Run(Reraised(failure), 3, RetryFrom(MakePolicy(3, 1.0, 60.0, None, None), op, draw, 0).sleeps)
    ensures RetryFrom(MakePolicy(4, 1.0, 60.0, None, None), op, draw, 0).verdict == Value(op(3).value)
    ensures RetryFrom(MakePolicy(4, 1.0, 60.0, None, None), op, draw, 0).calls == 4
  {
    var p3 := MakePolicy(3, 1.0, 60.0, None, None);
    var p4 := MakePolicy(4, 1.0, 60.0, None, None);
    assert Retryable(p3, failure) && Retryable(p4, failure);
    ExhaustsAttempts(p3, op, draw, 0);
    SucceedsOnCall(p4, op, draw, 0, 4);
  }

  /** `RetryableBrobotClient`: a client that keeps a retry count and runs
      calls through the decorator with that count and the defaults. */
  class RetryableBrobotClient {
    var maxRetries: int

    constructor(maxRetries: int)
      ensures this.maxRetries == maxRetries
    {
      this.maxRetries := maxRetries;
    }

    /** The policy `_with_retry` builds: `retry(max_attempts=self.max_retries)`. */
    function RetryPolicy(): (p: Policy)
      reads this
      ensures p.maxAttempts == maxRetries
      ensures p.baseDelay == DefaultBaseDelay && p.maxDelay == DefaultMaxDelay
      ensures forall e :: Catches(p, e) && (p.retryCondition(e) == ShouldRetry(e))
    {
      MakePolicy(maxRetries, DefaultBaseDelay, DefaultMaxDelay, None, None)
    }

    /** `_with_retry` / `_with_retry_async`. */
    method WithRetry<T(==)>(op: nat -> Call<T>, draw: nat -> Draw)
      returns (verdict: Verdict<T>, calls: nat, sleeps: seq<real>)
      ensures verdict == RetryFrom(RetryPolicy(), op, draw, 0).verdict
      ensures calls == RetryFrom(RetryPolicy(), op, draw, 0).calls
      ensures sleeps == RetryFrom(RetryPolicy(), op, draw, 0).sleeps
      ensures calls <= if maxRetries < 0 then 0 else maxRetries
    {
      verdict, calls, sleeps := RetryLoop(RetryPolicy(), op, draw);
    }
  }
}
