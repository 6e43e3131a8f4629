/** The standalone retry helper `exponentialBackoff`: no classifier, no jitter,
    no counter. The task is an oracle: its n-th call (0-based) settles as
    `task(n)`. Sleeping is recorded as the list of requested delays. */
module Retry {
  import opened JsRuntime

  /** The delay after a failure at 0-based attempt `attempt`: `baseMs * multiplier ** attempt`. */
  function BackoffDelay(baseMs: real, multiplier: real, attempt: nat): real
  {
    baseMs * Pow(multiplier, attempt)
  }

  /** The delays for attempts 0 .. n - 1, in order. */
  function Delays(baseMs: real, multiplier: real, n: nat): (ds: seq<real>)
    ensures |ds| == n
  {
    seq(n, a requires 0 <= a < n => BackoffDelay(baseMs, multiplier, a))
  }

  /** The index of the first fulfilled call among calls 0 .. limit - 1, or `limit` when there is none. */
  function FirstFulfilled<T>(task: nat -> Settled<T>, limit: nat): (k: nat)
    ensures k <= limit
    ensures k < limit ==> task(k).Fulfilled?
    ensures forall i :: 0 <= i < k ==> task(i).Rejected?
  {
    if limit == 0 then 0
    else
      var k := FirstFulfilled(task, limit - 1);
      if k < limit - 1 then k
      else if task(limit - 1).Fulfilled? then limit - 1
      else limit
  }

  /** What a run of the helper produced: its outcome, how many times it called
      the task, and the delays it slept for, in order. */
  datatype Run<T> = Run(outcome: Settled<T>, calls: nat, sleeps: seq<real>)

  /** The reference behaviour, stated without a loop: with a negative budget
      the task is never called and the unset `lastError` (undefined) is thrown;
      otherwise the first fulfilled call among the first `maxRetries + 1` wins,
      after one sleep per earlier failure, and when all of them fail the last
      failure is thrown after `maxRetries` sleeps. */
  function Expected<T>(task: nat -> Settled<T>, maxRetries: int, baseMs: real, multiplier: real): Run<T>
  {
    if maxRetries < 0 then Run(Rejected(Undefined), 0, [])
    else
      var k := FirstFulfilled(task, maxRetries + 1);
      if k <= maxRetries then Run(Fulfilled(task(k).value), k + 1, Delays(baseMs, multiplier, k))
      else Run(Rejected(task(maxRetries).reason), maxRetries + 1, Delays(baseMs, multiplier, maxRetries))
  }

  /** `exponentialBackoff(task, maxRetries, baseMs, multiplier)`. */
  method ExponentialBackoff<T>(task: nat -> Settled<T>, maxRetries: int, baseMs: real, multiplier: real)
    returns (outcome: Settled<T>, calls: nat, sleeps: seq<real>)
    ensures Run(outcome, calls, sleeps) == Expected(task, maxRetries, baseMs, multiplier)
  {
    var lastError: Thrown := Undefined;
    calls, sleeps := 0, [];
    var attempt: nat := 0;
    while attempt <= maxRetries
      invariant attempt == 0 || attempt <= maxRetries
      invariant attempt == 0 ==> lastError == Undefined
      invariant calls == attempt
      invariant forall i :: 0 <= i < attempt ==> task(i).Rejected?
      invariant sleeps == Delays(baseMs, multiplier, attempt)
      decreases maxRetries - attempt
    {
      var settled := task(attempt);
      calls := calls + 1;
      if settled.Fulfilled? {
        outcome := Fulfilled(settled.value);
        return;
      }
      lastError := settled.reason;
      if attempt == maxRetries {
        outcome := Rejected(settled.reason);
        return;
      }
      sleeps := sleeps + [BackoffDelay(baseMs, multiplier, attempt)];
      attempt := attempt + 1;
    }
    outcome := Rejected(lastError);
  }

  /** A task that fails k <= maxRetries times and then succeeds is called k + 1
      times, sleeps once after each failure (attempts 0 .. k - 1) and returns
      the successful value unchanged. */
  lemma FailThenSucceed<T>(task: nat -> Settled<T>, maxRetries: int, baseMs: real, multiplier: real, k: nat)
    requires k <= maxRetries
    requires forall i :: 0 <= i < k ==> task(i).Rejected?
    requires task(k).Fulfilled?
    ensures Expected(task, maxRetries, baseMs, multiplier)
         == Run(Fulfilled(task(k).value), k + 1, Delays(baseMs, multiplier, k))
  {
  }

  /** No classifier: whatever the failures are, every one is retried until the
      budget runs out, and the last one is thrown after exactly `maxRetries` sleeps. */
  lemma AlwaysFailing<T>(task: nat -> Settled<T>, maxRetries: int, baseMs: real, multiplier: real)
    requires maxRetries >= 0
    requires forall i :: 0 <= i <= maxRetries ==> task(i).Rejected?
    ensures Expected(task, maxRetries, baseMs, multiplier)
         == Run(Rejected(task(maxRetries).reason), maxRetries + 1, Delays(baseMs, multiplier, maxRetries))
  {
  }

  /** The task is called at least once and at most `maxRetries + 1` times when
      the budget is non-negative, and never otherwise; a fulfilled outcome is the
      value of the last call, and there is one sleep fewer than there are calls. */
  lemma CallsBounded<T>(task: nat -> Settled<T>, maxRetries: int, baseMs: real, multiplier: real)
    ensures var run := Expected(task, maxRetries, baseMs, multiplier);
            && (maxRetries >= 0 ==> 1 <= run.calls <= maxRetries + 1 && |run.sleeps| == run.calls - 1)
            && (maxRetries < 0 ==> run == Run(Rejected(Undefined), 0, []))
            && (run.outcome.Fulfilled? ==> run.calls > 0 && task(run.calls - 1) == run.outcome)
            && (forall a :: 0 <= a < |run.sleeps| ==> run.sleeps[a] == baseMs * Pow(multiplier, a))
  {
  }
}
