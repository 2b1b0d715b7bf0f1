// chaos_service/retry.py: the retry loop with its exponential cap, jitter and deadline.

module Retry {
  import opened Options

  // RetryConfig as __post_init__ admits it.
  datatype RawConfig = Config(maxAttempts: int, baseDelay: real, maxDelay: real)
  type Config = c: RawConfig | c.maxAttempts >= 1 && c.baseDelay >= 0.0 && c.maxDelay >= 0.0
    witness Config(3, 0.005, 0.05)

  // What one call of the function does.
  datatype Attempt<+T, +E> = Ok(value: T) | Transient(error: E) | Fatal(error: E)

  datatype Outcome<+T, +E> = Returned(value: T) | Reraised(error: E)

  datatype Metrics = Metrics(attempts: nat, successes: nat, failures: nat)

  function Pow2(n: nat): nat { if n == 0 then 1 else 2 * Pow2(n - 1) }

  function DelayCap(c: Config, attempt: nat): real
    requires attempt >= 1
  {
    var exponential := c.baseDelay * Pow2(attempt - 1) as real;
    if c.maxDelay <= exponential then c.maxDelay else exponential
  }

  // The caps of the sleeps after attempts 1, ..., n.
  function CapSum(c: Config, n: nat): real {
    if n == 0 then 0.0 else CapSum(c, n - 1) + DelayCap(c, n)
  }

  predicate CanWait(deadline: Option<real>, now: real, delay: real) {
    deadline.None? ||
    var remaining := if deadline.value - now > 0.0 then deadline.value - now else 0.0;
    remaining > if delay > 0.0 then delay else 0.0
  }

  // What random.uniform(0, cap) may answer after each attempt.
  ghost predicate Uniform(c: Config, jitter: nat -> real) {
    forall i: nat | i >= 1 :: 0.0 <= jitter(i) <= DelayCap(c, i)
  }

  lemma CapIsNonnegative(c: Config, attempt: nat)
    requires attempt >= 1
    ensures 0.0 <= DelayCap(c, attempt) <= c.maxDelay
  {
    assert c.baseDelay * Pow2(attempt - 1) as real >= 0.0;
  }

  // When attempt i starts, and how long the sleeps after attempts 1, ..., n last together.
  function StartOf(c: Config, work: nat -> real, jitter: nat -> real, startedAt: real, i: nat): real
    requires i >= 1
  {
    if i == 1 then startedAt
    else StartOf(c, work, jitter, startedAt, i - 1) + work(i - 1) + jitter(i - 1)
  }

  function SleepSum(c: Config, jitter: nat -> real, n: nat): real {
    if n == 0 then 0.0 else SleepSum(c, jitter, n - 1) + jitter(n)
  }

  // Attempt i failed with a transient error, and the deadline left room for the sleep after it.
  predicate GoesOn<T(!new), E(!new)>(c: Config, calls: nat -> Attempt<T, E>, work: nat -> real, jitter: nat -> real,
      deadline: Option<real>, startedAt: real, i: nat)
    requires i >= 1
  {
    calls(i).Transient? && i < c.maxAttempts &&
    CanWait(deadline, StartOf(c, work, jitter, startedAt, i) + work(i), jitter(i))
  }

  // The attempt after attempt i starts before the deadline, if there is one.
  predicate RetryFits(c: Config, work: nat -> real, jitter: nat -> real, deadline: Option<real>, startedAt: real,
      i: nat) {
    deadline.Some? ==> StartOf(c, work, jitter, startedAt, i + 1) < deadline.value
  }

  // An attempt is followed by another exactly when it failed transiently, attempts are left, and the next
  // one starts before the deadline.
  lemma RetryIffBeforeDeadline<T(!new), E(!new)>(c: Config, calls: nat -> Attempt<T, E>, work: nat -> real,
      jitter: nat -> real, deadline: Option<real>, startedAt: real, i: nat)
    requires i >= 1 && Uniform(c, jitter)
    ensures GoesOn(c, calls, work, jitter, deadline, startedAt, i) <==>
            && calls(i).Transient? && i < c.maxAttempts
            && RetryFits(c, work, jitter, deadline, startedAt, i)
  {
  }

  // The first cap is the base delay, each further one twice the cap before, and none exceeds the maximal delay.
  lemma CapDoubles(c: Config, attempt: nat)
    requires attempt >= 1
    ensures DelayCap(c, 1) == if c.baseDelay < c.maxDelay then c.baseDelay else c.maxDelay
    ensures DelayCap(c, attempt + 1) ==
            if 2.0 * DelayCap(c, attempt) < c.maxDelay then 2.0 * DelayCap(c, attempt) else c.maxDelay
  {
    var p := Pow2(attempt - 1) as real;
    assert Pow2(attempt) as real == 2.0 * p;
    assert c.baseDelay * (2.0 * p) == 2.0 * (c.baseDelay * p);
  }

  // Where the loop stops: no retry comes after the deadline, and none that would come before it is missed.
  ghost predicate StopsExactly<T(!new), E(!new)>(c: Config, calls: nat -> Attempt<T, E>, work: nat -> real,
      jitter: nat -> real, deadline: Option<real>, startedAt: real, n: nat)
    requires n >= 1
  {
    && (forall i: nat | 1 <= i < n :: calls(i).Transient? && RetryFits(c, work, jitter, deadline, startedAt, i))
    && (calls(n).Transient? ==> n == c.maxAttempts || !RetryFits(c, work, jitter, deadline, startedAt, n))
  }

  lemma LoopStops<T(!new), E(!new)>(c: Config, calls: nat -> Attempt<T, E>, work: nat -> real, jitter: nat -> real,
      deadline: Option<real>, startedAt: real, n: nat)
    requires 1 <= n <= c.maxAttempts && !GoesOn(c, calls, work, jitter, deadline, startedAt, n)
    requires forall i: nat | 1 <= i < n :: GoesOn(c, calls, work, jitter, deadline, startedAt, i)
    ensures Uniform(c, jitter) ==> StopsExactly(c, calls, work, jitter, deadline, startedAt, n)
  {
    if Uniform(c, jitter) {
      forall i: nat | 1 <= i < n
        ensures calls(i).Transient? && RetryFits(c, work, jitter, deadline, startedAt, i)
      {
        RetryIffBeforeDeadline(c, calls, work, jitter, deadline, startedAt, i);
      }
      RetryIffBeforeDeadline(c, calls, work, jitter, deadline, startedAt, n);
    }
  }

  // Returns the first success or raises the last error, after the first attempt that does not go on.
  // The source ends with a RuntimeError that is never reached.
  method Execute<T(!new), E(!new)>(c: Config, calls: nat -> Attempt<T, E>, work: nat -> real, jitter: nat -> real,
      deadline: Option<real>, startedAt: real)
    returns (result: Outcome<T, E>, n: nat, slept: real, metrics: Metrics)
    ensures 1 <= n <= c.maxAttempts && metrics.attempts == n && metrics.successes + metrics.failures == 1
    ensures forall i: nat | 1 <= i < n :: GoesOn(c, calls, work, jitter, deadline, startedAt, i)
    ensures !GoesOn(c, calls, work, jitter, deadline, startedAt, n)
    ensures match calls(n)
            case Ok(v) => result == Returned(v) && metrics.successes == 1
            case Transient(e) => result == Reraised(e) && metrics.failures == 1
            case Fatal(e) => result == Reraised(e) && metrics.failures == 1
    ensures slept == SleepSum(c, jitter, n - 1)
    ensures Uniform(c, jitter) ==> StopsExactly(c, calls, work, jitter, deadline, startedAt, n)
  {
    var now := startedAt;
    slept := 0.0;
    n := 1;
    while n <= c.maxAttempts
      invariant 1 <= n <= c.maxAttempts
      invariant now == StartOf(c, work, jitter, startedAt, n)
      invariant slept == SleepSum(c, jitter, n - 1)
      invariant forall i: nat | 1 <= i < n :: GoesOn(c, calls, work, jitter, deadline, startedAt, i)
      decreases c.maxAttempts - n
    {
      var call := calls(n);
      now := now + work(n);
      match call {
        case Ok(v) =>
          LoopStops(c, calls, work, jitter, deadline, startedAt, n);
          return Returned(v), n, slept, Metrics(n, 1, 0);
        case Fatal(e) =>
          LoopStops(c, calls, work, jitter, deadline, startedAt, n);
          return Reraised(e), n, slept, Metrics(n, 0, 1);
        case Transient(e) =>
          if n >= c.maxAttempts {
            LoopStops(c, calls, work, jitter, deadline, startedAt, n);
            return Reraised(e), n, slept, Metrics(n, 0, 1);
          }
          var delay := jitter(n);
          if !CanWait(deadline, now, delay) {
            LoopStops(c, calls, work, jitter, deadline, startedAt, n);
            return Reraised(e), n, slept, Metrics(n, 0, 1);
          }
          now, slept := now + delay, slept + delay;
          n := n + 1;
      }
    }
    assert false;
  }

  // The sleeps together stay below the sum of the exponential caps.
  lemma {:induction false} SleepsWithinCaps(c: Config, jitter: nat -> real, n: nat)
    requires Uniform(c, jitter)
    ensures 0.0 <= SleepSum(c, jitter, n) <= CapSum(c, n)
  {
    if n > 0 {
      SleepsWithinCaps(c, jitter, n - 1);
    }
  }

  // The caps never exceed the maximal delay, so neither does any sleep.
  lemma {:induction false} CapSumBounded(c: Config, n: nat)
    ensures CapSum(c, n) <= n as real * c.maxDelay
  {
    if n > 0 {
      CapSumBounded(c, n - 1);
      CapIsNonnegative(c, n);
      assert n as real * c.maxDelay == (n - 1) as real * c.maxDelay + c.maxDelay;
    }
  }
}
