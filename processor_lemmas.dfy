/** What the reference behaviour in ProcessorSpec promises: how the retry
    wrapper spends its budget, what one record costs, how a batch's failures
    are recorded, and when the outer loop stops. */
module ProcessorLemmas {
  import opened JsRuntime
  import opened Records
  import opened Classifier
  import opened Chunking
  import opened ProcessorSpec

  function Max(a: int, b: int): int
  {
    if a >= b then a else b
  }

  // ---------------------------------------------------------------------------
  // The retry wrapper
  // ---------------------------------------------------------------------------

  /** What the n-th call of the collaborator behind `t` settles with, read
      from the collaborators alone, whatever else the state holds. */
  function Outcome(env: Env, t: Task, n: nat): Settled<seq<RecordData>>
  {
    match t
    case QueryUnprocessed => env.repository.queryUnprocessed(n)
    case Work(processFn, record) =>
      if processFn(record, n).Fulfilled? then Fulfilled([]) else Rejected(processFn(record, n).reason)
    case MarkAsProcessed(accountId, runTime) => Unit(env.repository.markAsProcessed(accountId, runTime, n))
  }

  /** One call settles as its collaborator's answer to that call number, and
      moves only that collaborator's counter (and, for a work success, the
      processed count). */
  lemma CallSettles(env: Env, s: State, t: Task)
    ensures var c := Call(env, s, t);
            && c.outcome == Outcome(env, t, TaskCalls(s, t))
            && TaskCalls(c.state, t) == TaskCalls(s, t) + 1
            && c.state.totalProcessed == s.totalProcessed + (if t.Work? && c.outcome.Fulfilled? then 1 else 0)
            && c.state.errors == s.errors && c.state.totalAttempts == s.totalAttempts
  {
  }

  /** The `n` sleeps after retryable failures at attempts `attempt`, `attempt + 1`, ...,
      drawing `Math.random()` values from call `firstRandom` on. */
  function JitterSleeps(env: Env, baseMs: real, multiplier: real, attempt: nat, firstRandom: nat, n: nat): (ds: seq<real>)
    ensures |ds| == n
    decreases n
  {
    if n == 0 then []
    else [JitteredDelay(baseMs, multiplier, attempt, env.random(firstRandom))]
         + JitterSleeps(env, baseMs, multiplier, attempt + 1, firstRandom + 1, n - 1)
  }

  /** How many times the wrapper calls the task (from `attempt` on), how many
      of those calls fail, and what else it changes: every failure counts one
      attempt and logs one line, a work call that succeeds counts one processed
      record, and nothing else moves. */
  lemma {:induction false} RetryCounts(env: Env, s: State, t: Task, maxRetries: int, baseMs: real, multiplier: real,
                                       attempt: nat, lastError: Thrown)
    ensures var r := Retry(env, s, t, maxRetries, baseMs, multiplier, attempt, lastError);
            var calls := TaskCalls(r.state, t) - TaskCalls(s, t);
            var failures := if r.outcome.Fulfilled? then calls - 1 else calls;
            && (attempt > maxRetries ==> r == Step(Rejected(lastError), s))
            && (attempt <= maxRetries ==> 1 <= calls <= maxRetries - attempt + 1)
            && r.state.totalAttempts == s.totalAttempts + failures
            && |r.state.debugs| == |s.debugs| + failures
            && r.state.debugs[..|s.debugs|] == s.debugs
            && r.state.totalProcessed == s.totalProcessed + (if t.Work? && r.outcome.Fulfilled? then 1 else 0)
            && r.state.errors == s.errors
            && r.state.warnings == s.warnings
            && (t.QueryUnprocessed? || r.state.queryCalls == s.queryCalls)
            && (t.Work? || r.state.workCalls == s.workCalls)
            && (t.MarkAsProcessed? || r.state.markCalls == s.markCalls)
    decreases maxRetries - attempt
  {
    if attempt <= maxRetries {
      var call := Call(env, s, t);
      if call.outcome.Rejected? {
        var error := call.outcome.reason;
        var failed := RecordFailure(call.state, error);
        if env.isRetryable(error) && attempt < maxRetries {
          var next := SleepBeforeRetry(env, failed, baseMs, multiplier, attempt);
          RetryCounts(env, next, t, maxRetries, baseMs, multiplier, attempt + 1, error);
          var r := Retry(env, next, t, maxRetries, baseMs, multiplier, attempt + 1, error);
          assert r.state.debugs[..|next.debugs|] == next.debugs;
          assert r.state.debugs[..|s.debugs|] == next.debugs[..|s.debugs|];
        }
      }
    }
  }

  /** Every call but the last failed with a retryable error, and the wrapper
      settles as its last call did; a rejection after at least one call means
      the last failure was not retryable or the budget ran out. */
  lemma {:induction false} RetryOutcome(env: Env, s: State, t: Task, maxRetries: int, baseMs: real,
                                        multiplier: real, attempt: nat, lastError: Thrown)
    ensures var r := Retry(env, s, t, maxRetries, baseMs, multiplier, attempt, lastError);
            var first := TaskCalls(s, t);
            var calls := TaskCalls(r.state, t) - first;
            && (forall j :: first <= j < first + calls - 1 ==>
                  Outcome(env, t, j).Rejected? && env.isRetryable(Outcome(env, t, j).reason))
            && (calls > 0 ==> r.outcome == Outcome(env, t, first + calls - 1))
            && (calls == 0 ==> r.outcome == Rejected(lastError))
            && (r.outcome.Rejected? && calls > 0 ==>
                  !env.isRetryable(r.outcome.reason) || attempt + calls == maxRetries + 1)
    decreases maxRetries - attempt
  {
    if attempt <= maxRetries {
      var call := Call(env, s, t);
      assert call.outcome == Outcome(env, t, TaskCalls(s, t));
      assert TaskCalls(call.state, t) == TaskCalls(s, t) + 1;
      if call.outcome.Rejected? {
        var error := call.outcome.reason;
        var failed := RecordFailure(call.state, error);
        if env.isRetryable(error) && attempt < maxRetries {
          var next := SleepBeforeRetry(env, failed, baseMs, multiplier, attempt);
          assert TaskCalls(next, t) == TaskCalls(s, t) + 1;
          RetryOutcome(env, next, t, maxRetries, baseMs, multiplier, attempt + 1, error);
          RetryCounts(env, next, t, maxRetries, baseMs, multiplier, attempt + 1, error);
        }
      }
    }
  }

  /** One `Math.random()` and one sleep per retried failure, each sleep the
      exponential delay for its attempt plus its jitter. */
  lemma {:induction false} RetrySleeps(env: Env, s: State, t: Task, maxRetries: int, baseMs: real, multiplier: real,
                                       attempt: nat, lastError: Thrown)
    ensures var r := Retry(env, s, t, maxRetries, baseMs, multiplier, attempt, lastError);
            var calls := TaskCalls(r.state, t) - TaskCalls(s, t);
            var retried := if calls > 0 then calls - 1 else 0;
            && r.state.randomCalls == s.randomCalls + retried
            && r.state.sleeps == s.sleeps + JitterSleeps(env, baseMs, multiplier, attempt, s.randomCalls, retried)
    decreases maxRetries - attempt
  {
    var r := Retry(env, s, t, maxRetries, baseMs, multiplier, attempt, lastError);
    if attempt <= maxRetries {
      var call := Call(env, s, t);
      if call.outcome.Rejected? {
        var error := call.outcome.reason;
        var failed := RecordFailure(call.state, error);
        if env.isRetryable(error) && attempt < maxRetries {
          var next := SleepBeforeRetry(env, failed, baseMs, multiplier, attempt);
          RetrySleeps(env, next, t, maxRetries, baseMs, multiplier, attempt + 1, error);
          RetryCounts(env, next, t, maxRetries, baseMs, multiplier, attempt + 1, error);
          RetrySleepsStep(env, s, next, t, maxRetries, baseMs, multiplier, attempt, error);
          return;
        }
      }
    }
    assert JitterSleeps(env, baseMs, multiplier, attempt, s.randomCalls, 0) == [];
    assert s.sleeps + [] == s.sleeps;
  }

  /** The step of RetrySleeps that retries: the sleep just taken is the head
      of what the rest of the run sleeps. */
  lemma RetrySleepsStep(env: Env, s: State, next: State, t: Task, maxRetries: int, baseMs: real, multiplier: real,
                        attempt: nat, error: Thrown)
    requires attempt < maxRetries
    requires TaskCalls(next, t) == TaskCalls(s, t) + 1
    requires next.randomCalls == s.randomCalls + 1
    requires next.sleeps == s.sleeps + [JitteredDelay(baseMs, multiplier, attempt, env.random(s.randomCalls))]
    requires var r := Retry(env, next, t, maxRetries, baseMs, multiplier, attempt + 1, error);
             var calls := TaskCalls(r.state, t) - TaskCalls(next, t);
             && calls >= 1
             && r.state.randomCalls == next.randomCalls + (calls - 1)
             && r.state.sleeps == next.sleeps + JitterSleeps(env, baseMs, multiplier, attempt + 1, next.randomCalls, calls - 1)
    ensures var r := Retry(env, next, t, maxRetries, baseMs, multiplier, attempt + 1, error);
            var calls := TaskCalls(r.state, t) - TaskCalls(s, t);
            && r.state.randomCalls == s.randomCalls + (calls - 1)
            && r.state.sleeps == s.sleeps + JitterSleeps(env, baseMs, multiplier, attempt, s.randomCalls, calls - 1)
  {
    var r := Retry(env, next, t, maxRetries, baseMs, multiplier, attempt + 1, error);
    var n := TaskCalls(r.state, t) - TaskCalls(next, t);
    var head := JitteredDelay(baseMs, multiplier, attempt, env.random(s.randomCalls));
    var rest := JitterSleeps(env, baseMs, multiplier, attempt + 1, s.randomCalls + 1, n - 1);
    assert JitterSleeps(env, baseMs, multiplier, attempt, s.randomCalls, n) == [head] + rest;
    assert (s.sleeps + [head]) + rest == s.sleeps + ([head] + rest);
  }

  lemma ProductBelow(x: real, q: real)
    requires 0.0 <= x < 1.0 && q > 0.0
    ensures 0.0 <= x * q < q
  {
    assert q - x * q == (1.0 - x) * q;
  }

  /** The jitter adds at most a tenth of the base to the exponential delay. */
  lemma JitterBounds(baseMs: real, multiplier: real, attempt: nat, random: real)
    requires baseMs > 0.0 && 0.0 <= random < 1.0
    ensures baseMs * Pow(multiplier, attempt) <= JitteredDelay(baseMs, multiplier, attempt, random)
                                              < baseMs * Pow(multiplier, attempt) + baseMs * 0.1
  {
    JitterBelowTenth(baseMs, random);
  }

  lemma JitterBelowTenth(baseMs: real, random: real)
    requires baseMs > 0.0 && 0.0 <= random < 1.0
    ensures 0.0 <= random * baseMs * 0.1 < baseMs * 0.1
  {
    ProductBelow(random, baseMs * 0.1);
    assert random * baseMs * 0.1 == random * (baseMs * 0.1);
  }

  /** The j-th sleep is the jittered delay of attempt `attempt + j`, drawn with
      the `firstRandom + j`-th `Math.random()`. */
  lemma {:induction false} JitterSleepsAt(env: Env, baseMs: real, multiplier: real, attempt: nat, firstRandom: nat,
                                          n: nat, j: nat)
    requires j < n
    ensures JitterSleeps(env, baseMs, multiplier, attempt, firstRandom, n)[j]
         == JitteredDelay(baseMs, multiplier, attempt + j, env.random(firstRandom + j))
    decreases j
  {
    if j > 0 {
      JitterSleepsAt(env, baseMs, multiplier, attempt + 1, firstRandom + 1, n - 1, j - 1);
    }
  }

  /** With a positive base and `Math.random()` in [0, 1), the j-th sleep lies in
      [base * multiplier^(attempt + j), that + base / 10). */
  lemma JitterSleepBounds(env: Env, baseMs: real, multiplier: real, attempt: nat, firstRandom: nat, n: nat, j: nat)
    requires baseMs > 0.0
    requires forall k :: 0.0 <= env.random(k) < 1.0
    requires j < n
    ensures var delay := JitterSleeps(env, baseMs, multiplier, attempt, firstRandom, n)[j];
            baseMs * Pow(multiplier, attempt + j) <= delay < baseMs * Pow(multiplier, attempt + j) + baseMs * 0.1
  {
    var random := env.random(firstRandom + j);
    JitterBounds(baseMs, multiplier, attempt + j, random);
    JitterSleepsAt(env, baseMs, multiplier, attempt, firstRandom, n, j);
  }

  /** A failure the classifier rejects is not retried: one call, no sleep, and
      the failure is what the wrapper throws. */
  lemma NonRetryableFailsFast(env: Env, s: State, t: Task, maxRetries: int, baseMs: real, multiplier: real)
    requires maxRetries >= 0
    requires Outcome(env, t, TaskCalls(s, t)).Rejected?
    requires !env.isRetryable(Outcome(env, t, TaskCalls(s, t)).reason)
    ensures var r := Retry(env, s, t, maxRetries, baseMs, multiplier, 0, Undefined);
            && r.outcome == Outcome(env, t, TaskCalls(s, t))
            && TaskCalls(r.state, t) == TaskCalls(s, t) + 1
            && r.state.sleeps == s.sleeps
            && r.state.totalAttempts == s.totalAttempts + 1
  {
    RetryCounts(env, s, t, maxRetries, baseMs, multiplier, 0, Undefined);
    RetryOutcome(env, s, t, maxRetries, baseMs, multiplier, 0, Undefined);
    RetrySleeps(env, s, t, maxRetries, baseMs, multiplier, 0, Undefined);
  }

  /** `k` retryable failures followed by a success, within the budget, cost
      `k + 1` calls, `k` counted attempts and `k` sleeps, and the wrapper
      returns the success. */
  lemma RecoversAfterRetryableFailures(env: Env, s: State, t: Task, maxRetries: int, baseMs: real,
                                       multiplier: real, k: nat)
    requires k <= maxRetries
    requires forall j :: TaskCalls(s, t) <= j < TaskCalls(s, t) + k ==>
               Outcome(env, t, j).Rejected? && env.isRetryable(Outcome(env, t, j).reason)
    requires Outcome(env, t, TaskCalls(s, t) + k).Fulfilled?
    ensures var r := Retry(env, s, t, maxRetries, baseMs, multiplier, 0, Undefined);
            && r.outcome == Outcome(env, t, TaskCalls(s, t) + k)
            && TaskCalls(r.state, t) == TaskCalls(s, t) + k + 1
            && r.state.totalAttempts == s.totalAttempts + k
            && |r.state.sleeps| == |s.sleeps| + k
  {
    RetryCounts(env, s, t, maxRetries, baseMs, multiplier, 0, Undefined);
    RetryOutcome(env, s, t, maxRetries, baseMs, multiplier, 0, Undefined);
    RetrySleeps(env, s, t, maxRetries, baseMs, multiplier, 0, Undefined);
  }

  // ---------------------------------------------------------------------------
  // One record
  // ---------------------------------------------------------------------------

  /** `processRecord` counts a record as processed exactly when its work
      succeeded, and only then asks the store to mark it; a fulfilled record
      was processed, a rejected one that reached the mark failed there, and
      each of the two calls stays within its own budget. */
  lemma ProcessRecordCounts(env: Env, cfg: ProcessorConfig, s: State, processFn: ProcessFunction, record: RecordData)
    ensures var r := ProcessRecord(env, cfg, s, processFn, record);
            var worked := r.state.totalProcessed == s.totalProcessed + 1;
            && (worked || r.state.totalProcessed == s.totalProcessed)
            && (worked <==> r.state.markCalls > s.markCalls)
            && (worked ==> r.state.workCalls > s.workCalls && processFn(record, r.state.workCalls - 1).Fulfilled?)
            && (forall j :: s.workCalls <= j < r.state.workCalls - (if worked then 1 else 0) ==>
                  processFn(record, j).Rejected?)
            && (r.outcome.Fulfilled? ==> worked)
            && (r.outcome.Rejected? && worked ==>
                  env.repository.markAsProcessed(record.accountId, record.runTime, r.state.markCalls - 1).Rejected?)
            && r.state.workCalls - s.workCalls <= Max(0, cfg.maxRetries + 1)
            && r.state.markCalls - s.markCalls <= Max(0, cfg.maxRetries + 1)
            && r.state.totalAttempts - s.totalAttempts
               == (r.state.workCalls - s.workCalls) + (r.state.markCalls - s.markCalls)
                  - (if worked then 1 else 0) - (if r.outcome.Fulfilled? then 1 else 0)
            && r.state.errors == s.errors && r.state.warnings == s.warnings && r.state.queryCalls == s.queryCalls
  {
    WorkAttempts(env, cfg, s, processFn, record);
    var w := RetryTask(env, cfg, s, Work(processFn, record));
    if w.outcome.Fulfilled? {
      MarkAttempts(env, cfg, w.state, record);
    }
  }

  /** The work under the retry wrapper: it succeeds on its last call, after
      failures on all earlier ones, and counts the record exactly then. */
  lemma WorkAttempts(env: Env, cfg: ProcessorConfig, s: State, processFn: ProcessFunction, record: RecordData)
    ensures var w := RetryTask(env, cfg, s, Work(processFn, record));
            var worked := w.outcome.Fulfilled?;
            && (cfg.maxRetries >= 0 ==> w.state.workCalls > s.workCalls)
            && (worked ==> cfg.maxRetries >= 0 && w.state.workCalls > s.workCalls
                           && processFn(record, w.state.workCalls - 1).Fulfilled?)
            && w.state.totalAttempts == s.totalAttempts + (w.state.workCalls - s.workCalls) - (if worked then 1 else 0)
            && (forall j :: s.workCalls <= j < w.state.workCalls - (if worked then 1 else 0) ==>
                  processFn(record, j).Rejected?)
            && w.state.totalProcessed == s.totalProcessed + (if worked then 1 else 0)
            && w.state.workCalls - s.workCalls <= Max(0, cfg.maxRetries + 1)
            && w.state.markCalls == s.markCalls && w.state.queryCalls == s.queryCalls
            && w.state.errors == s.errors && w.state.warnings == s.warnings
  {
    var work := Work(processFn, record);
    RetryCounts(env, s, work, cfg.maxRetries, cfg.backoffBaseMs, cfg.backoffMultiplier, 0, Undefined);
    RetryOutcome(env, s, work, cfg.maxRetries, cfg.backoffBaseMs, cfg.backoffMultiplier, 0, Undefined);
    var w := RetryTask(env, cfg, s, work);
    if w.outcome.Rejected? {
      forall j | s.workCalls <= j < w.state.workCalls
        ensures processFn(record, j).Rejected?
      {
        if j < w.state.workCalls - 1 {
          assert Outcome(env, work, j).Rejected?;
        } else {
          assert Outcome(env, work, j) == w.outcome;
        }
      }
    } else {
      assert Outcome(env, work, w.state.workCalls - 1) == w.outcome;
      forall j | s.workCalls <= j < w.state.workCalls - 1
        ensures processFn(record, j).Rejected?
      {
        assert Outcome(env, work, j).Rejected?;
      }
    }
  }

  /** The mark under the retry wrapper: called at least once whenever the
      budget allows a call, rejected only when its last call was. */
  lemma MarkAttempts(env: Env, cfg: ProcessorConfig, s: State, record: RecordData)
    ensures var m := MarkRecord(env, cfg, s, record);
            var marked := m.outcome.Fulfilled?;
            && (cfg.maxRetries >= 0 ==> m.state.markCalls > s.markCalls)
            && (marked ==> m.state.markCalls > s.markCalls)
            && m.state.markCalls - s.markCalls <= Max(0, cfg.maxRetries + 1)
            && (forall j :: s.markCalls <= j < m.state.markCalls - (if marked then 1 else 0) ==>
                  env.repository.markAsProcessed(record.accountId, record.runTime, j).Rejected?)
            && m.state.totalAttempts == s.totalAttempts + (m.state.markCalls - s.markCalls) - (if marked then 1 else 0)
            && m.state.totalProcessed == s.totalProcessed
            && m.state.workCalls == s.workCalls && m.state.queryCalls == s.queryCalls
            && m.state.errors == s.errors && m.state.warnings == s.warnings
  {
    var mark := MarkAsProcessed(record.accountId, record.runTime);
    RetryCounts(env, s, mark, cfg.maxRetries, cfg.backoffBaseMs, cfg.backoffMultiplier, 0, Undefined);
    RetryOutcome(env, s, mark, cfg.maxRetries, cfg.backoffBaseMs, cfg.backoffMultiplier, 0, Undefined);
    var m := RetryTask(env, cfg, s, mark);
    forall j | s.markCalls <= j < m.state.markCalls - (if m.outcome.Fulfilled? then 1 else 0)
      ensures env.repository.markAsProcessed(record.accountId, record.runTime, j).Rejected?
    {
      if j < m.state.markCalls - 1 {
        assert Outcome(env, mark, j).Rejected?;
      } else {
        assert Outcome(env, mark, j) == m.outcome;
      }
    }
  }

  // ---------------------------------------------------------------------------
  // One chunk and its settlement
  // ---------------------------------------------------------------------------

  /** How many of the results are fulfilled. */
  function CountFulfilled(results: seq<Settled<()>>): (n: nat)
    ensures n <= |results|
  {
    if results == [] then 0
    else CountFulfilled(results[..|results| - 1]) + (if results[|results| - 1].Fulfilled? then 1 else 0)
  }

  lemma {:induction false} CountFulfilledAppend(xs: seq<Settled<()>>, ys: seq<Settled<()>>)
    ensures CountFulfilled(xs + ys) == CountFulfilled(xs) + CountFulfilled(ys)
    decreases |ys|
  {
    if ys == [] {
      assert xs + ys == xs;
    } else {
      var n := |ys| - 1;
      assert (xs + ys)[..|xs| + n] == xs + ys[..n];
      CountFulfilledAppend(xs, ys[..n]);
    }
  }

  /** Settling a chunk never touches the error list, the warnings or the
      store's query; it counts at most one processed record per record, and
      at least one per fulfilled result. */
  lemma {:induction false} RunChunkCounts(env: Env, cfg: ProcessorConfig, s: State, processFn: ProcessFunction,
                                          chunk: seq<RecordData>)
    ensures var run := RunChunk(env, cfg, s, processFn, chunk);
            && run.state.errors == s.errors && run.state.warnings == s.warnings
            && run.state.queryCalls == s.queryCalls
            && CountFulfilled(run.results) <= run.state.totalProcessed - s.totalProcessed <= |chunk|
    decreases |chunk|
  {
    if chunk != [] {
      var n := |chunk| - 1;
      var before := RunChunk(env, cfg, s, processFn, chunk[..n]);
      RunChunkCounts(env, cfg, s, processFn, chunk[..n]);
      ProcessRecordCounts(env, cfg, before.state, processFn, chunk[n]);
      var last := ProcessRecord(env, cfg, before.state, processFn, chunk[n]);
      assert (before.results + [last.outcome])[..n] == before.results;
    }
  }

  /** The indices of the rejected results, in increasing order. */
  function RejectedIndices(results: seq<Settled<()>>): (idx: seq<nat>)
    ensures forall j :: 0 <= j < |idx| ==> idx[j] < |results| && results[idx[j]].Rejected?
    ensures forall j, k :: 0 <= j < k < |idx| ==> idx[j] < idx[k]
    ensures forall i :: 0 <= i < |results| && results[i].Rejected? ==> i in idx
  {
    if results == [] then []
    else
      var n := |results| - 1;
      RejectedIndices(results[..n]) + (if results[n].Rejected? then [n] else [])
  }

  /** The rejected records are recorded in order, each once, with its own keys
      and the message of its own rejection; fulfilled ones leave no trace. */
  lemma {:induction false} SettleByIndices(records: seq<RecordData>, results: seq<Settled<()>>)
    requires |records| == |results|
    ensures var settled := Settle(records, results);
            var idx := RejectedIndices(results);
            && |settled.errors| == |idx| && |settled.failed| == |idx|
            && forall j :: 0 <= j < |idx| ==>
                 settled.failed[j] == records[idx[j]]
                 && settled.errors[j] == ErrorFor(records[idx[j]], results[idx[j]].reason)
    decreases |records|
  {
    if records != [] {
      var n := |records| - 1;
      SettleByIndices(records[..n], results[..n]);
      assert RejectedIndices(results) == RejectedIndices(results[..n]) + (if results[n].Rejected? then [n] else []);
    }
  }

  /** Settling two runs of results one after the other appends what each of them settles to. */
  lemma {:induction false} SettleAppend(records: seq<RecordData>, results: seq<Settled<()>>,
                                        more: seq<RecordData>, moreResults: seq<Settled<()>>)
    requires |records| == |results| && |more| == |moreResults|
    ensures var a := Settle(records, results);
            var b := Settle(more, moreResults);
            Settle(records + more, results + moreResults) == Settlement(a.errors + b.errors, a.failed + b.failed)
    decreases |more|
  {
    if more == [] {
      assert records + more == records && results + moreResults == results;
    } else {
      var n := |more| - 1;
      SettleAppend(records, results, more[..n], moreResults[..n]);
      assert (records + more)[..|records| + n] == records + more[..n];
      assert (results + moreResults)[..|results| + n] == results + moreResults[..n];
    }
  }

  // ---------------------------------------------------------------------------
  // One batch
  // ---------------------------------------------------------------------------

  lemma FlattenSnoc<T>(xss: seq<seq<T>>, xs: seq<T>)
    ensures Flatten(xss + [xs]) == Flatten(xss) + xs
  {
    FlattenAppend(xss, [xs]);
    assert Flatten([xs]) == xs + Flatten([]);
  }

  /** One more chunk step keeps a batch's errors and failed records those of
      settling all its records at once. */
  lemma SettleSnoc(s: State, records: seq<RecordData>, before: BatchRun, last: seq<RecordData>, run: ChunkRun)
    requires |before.results| == |records| && |run.results| == |last|
    requires before.state.errors == s.errors + Settle(records, before.results).errors
    requires before.failed == Settle(records, before.results).failed
    requires run.state.errors == before.state.errors
    ensures var settled := Settle(last, run.results);
            var all := Settle(records + last, before.results + run.results);
            && run.state.errors + settled.errors == s.errors + all.errors
            && before.failed + settled.failed == all.failed
  {
    SettleAppend(records, before.results, last, run.results);
  }

  /** Chunk after chunk, the errors appended and the records returned are
      those of settling all the records, concatenated, against all the results. */
  lemma {:induction false} BatchChunksSettle(env: Env, cfg: ProcessorConfig, s: State, processFn: ProcessFunction,
                                             chunks: seq<seq<RecordData>>)
    ensures var b := BatchChunks(env, cfg, s, processFn, chunks);
            var records := Flatten(chunks);
            && |b.results| == |records|
            && b.state.errors == s.errors + Settle(records, b.results).errors
            && b.failed == Settle(records, b.results).failed
    decreases |chunks|
  {
    if chunks != [] {
      var n := |chunks| - 1;
      var init, last := chunks[..n], chunks[n];
      assert chunks == init + [last];
      FlattenSnoc(init, last);
      BatchChunksSettle(env, cfg, s, processFn, init);
      var before := BatchChunks(env, cfg, s, processFn, init);
      RunChunkCounts(env, cfg, before.state, processFn, last);
      SettleSnoc(s, Flatten(init), before, last, RunChunk(env, cfg, before.state, processFn, last));
    } else {
      assert Flatten(chunks) == [];
    }
  }

  /** Chunk after chunk, no warning is logged and the store is not queried,
      and at most one record per input is counted as processed. */
  lemma {:induction false} BatchChunksCounts(env: Env, cfg: ProcessorConfig, s: State, processFn: ProcessFunction,
                                             chunks: seq<seq<RecordData>>)
    ensures var b := BatchChunks(env, cfg, s, processFn, chunks);
            && b.state.warnings == s.warnings && b.state.queryCalls == s.queryCalls
            && CountFulfilled(b.results) <= b.state.totalProcessed - s.totalProcessed <= |Flatten(chunks)|
    decreases |chunks|
  {
    if chunks != [] {
      var n := |chunks| - 1;
      var init, last := chunks[..n], chunks[n];
      assert chunks == init + [last];
      FlattenSnoc(init, last);
      BatchChunksCounts(env, cfg, s, processFn, init);
      var before := BatchChunks(env, cfg, s, processFn, init);
      RunChunkCounts(env, cfg, before.state, processFn, last);
      var run := RunChunk(env, cfg, before.state, processFn, last);
      CountFulfilledAppend(before.results, run.results);
    } else {
      assert Flatten(chunks) == [];
    }
  }

  /** `processBatch` settles every record once, in input order: the errors it
      appends and the records it returns are exactly the rejected ones (see
      SettleByIndices), and at most one record per input is counted as
      processed. */
  lemma BatchSettles(env: Env, cfg: ProcessorConfig, s: State, processFn: ProcessFunction, records: seq<RecordData>)
    requires cfg.maxWorkers > 0
    ensures var b := Batch(env, cfg, s, processFn, records);
            && |b.results| == |records|
            && b.state.errors == s.errors + Settle(records, b.results).errors
            && b.failed == Settle(records, b.results).failed
            && b.state.warnings == s.warnings && b.state.queryCalls == s.queryCalls
            && CountFulfilled(b.results) <= b.state.totalProcessed - s.totalProcessed <= |records|
  {
    ChunksPartition(records, cfg.maxWorkers);
    BatchChunksSettle(env, cfg, s, processFn, Chunks(records, cfg.maxWorkers));
    BatchChunksCounts(env, cfg, s, processFn, Chunks(records, cfg.maxWorkers));
  }

  // ---------------------------------------------------------------------------
  // The outer loop
  // ---------------------------------------------------------------------------

  /** The loop runs at most `maxIterations` batches and stops because of the
      cap exactly when that many have run. */
  lemma {:induction false} LoopIterations(env: Env, cfg: ProcessorConfig, maxIterations: int, s: State,
                                          processFn: ProcessFunction, recordsToRetry: seq<RecordData>, iteration: nat,
                                          r: LoopRun)
    requires cfg.maxWorkers > 0
    requires r == Loop(env, cfg, maxIterations, s, processFn, recordsToRetry, iteration)
    ensures iteration <= r.iterations <= Max(iteration, maxIterations)
    ensures r.exit == Capped <==> r.iterations >= maxIterations
    decreases maxIterations - iteration
  {
    if iteration < maxIterations {
      var fetched := Fetch(env, cfg, s, recordsToRetry);
      if fetched.outcome.Fulfilled? && |fetched.outcome.value| > 0 {
        LoopContinues(env, cfg, maxIterations, s, processFn, recordsToRetry, iteration,
                      fetched.outcome.value, fetched.state);
        var batch := Batch(env, cfg, fetched.state, processFn, fetched.outcome.value);
        LoopIterations(env, cfg, maxIterations, batch.state, processFn, batch.failed, iteration + 1, r);
      }
    }
  }

  /** The loop rejects exactly when fetching the store's candidates fails, and
      otherwise it returns the error list it leaves. */
  lemma {:induction false} LoopOutcome(env: Env, cfg: ProcessorConfig, maxIterations: int, s: State,
                                       processFn: ProcessFunction, recordsToRetry: seq<RecordData>, iteration: nat)
    requires cfg.maxWorkers > 0
    ensures var r := Loop(env, cfg, maxIterations, s, processFn, recordsToRetry, iteration);
            && (r.exit == FetchRejected <==> r.outcome.Rejected?)
            && (r.outcome.Fulfilled? ==> r.outcome.value == r.state.errors)
    decreases maxIterations - iteration
  {
    if iteration < maxIterations {
      var fetched := Fetch(env, cfg, s, recordsToRetry);
      if fetched.outcome.Fulfilled? && |fetched.outcome.value| > 0 {
        var batch := Batch(env, cfg, fetched.state, processFn, fetched.outcome.value);
        LoopOutcome(env, cfg, maxIterations, batch.state, processFn, batch.failed, iteration + 1);
      }
    }
  }

  /** The loop warns once, and only when the cap stops it, and its error list
      only ever grows. */
  lemma {:induction false} LoopLogs(env: Env, cfg: ProcessorConfig, maxIterations: int, s: State,
                                    processFn: ProcessFunction, recordsToRetry: seq<RecordData>, iteration: nat)
    requires cfg.maxWorkers > 0
    ensures var r := Loop(env, cfg, maxIterations, s, processFn, recordsToRetry, iteration);
            && r.state.warnings == s.warnings + (if r.exit == Capped then [MaxIterationsWarning(maxIterations)] else [])
            && s.errors <= r.state.errors
    decreases maxIterations - iteration
  {
    if iteration < maxIterations {
      var fetched := Fetch(env, cfg, s, recordsToRetry);
      if |recordsToRetry| == 0 {
        FetchKeeps(env, cfg, s);
      }
      if fetched.outcome.Fulfilled? && |fetched.outcome.value| > 0 {
        BatchKeeps(env, cfg, fetched.state, processFn, fetched.outcome.value);
        var batch := Batch(env, cfg, fetched.state, processFn, fetched.outcome.value);
        LoopLogs(env, cfg, maxIterations, batch.state, processFn, batch.failed, iteration + 1);
        var r := Loop(env, cfg, maxIterations, batch.state, processFn, batch.failed, iteration + 1);
        PrefixTransitive(s.errors, batch.state.errors, r.state.errors);
      }
    }
  }

  /** Fetching candidates leaves the errors and the warnings alone. */
  lemma FetchKeeps(env: Env, cfg: ProcessorConfig, s: State)
    ensures var fetched := RetryTask(env, cfg, s, QueryUnprocessed);
            fetched.state.errors == s.errors && fetched.state.warnings == s.warnings
  {
    RetryCounts(env, s, QueryUnprocessed, cfg.maxRetries, cfg.backoffBaseMs, cfg.backoffMultiplier, 0, Undefined);
  }

  /** A batch only appends to the errors and leaves the warnings alone. */
  lemma BatchKeeps(env: Env, cfg: ProcessorConfig, s: State, processFn: ProcessFunction, records: seq<RecordData>)
    requires cfg.maxWorkers > 0
    ensures var b := Batch(env, cfg, s, processFn, records);
            s.errors <= b.state.errors && b.state.warnings == s.warnings
  {
    BatchSettles(env, cfg, s, processFn, records);
  }

  lemma PrefixTransitive<T>(a: seq<T>, b: seq<T>, c: seq<T>)
    requires a <= b && b <= c
    ensures a <= c
  {
    assert c[..|b|][..|a|] == c[..|a|];
  }

  /** `processAll` from a fresh error list and fresh counters: at most
      `maxIterations` batches, the warning exactly when the cap stops it (at
      once, without a query, when the cap is not positive), a rejection
      exactly when a fetch fails, and otherwise the errors it leaves. */
  lemma ProcessAllShape(env: Env, cfg: ProcessorConfig, maxIterations: int, s: State, processFn: ProcessFunction)
    requires cfg.maxWorkers > 0
    ensures var r := ProcessAll(env, cfg, maxIterations, s, processFn);
            && r.iterations <= Max(0, maxIterations)
            && (r.exit == Capped <==> r.iterations >= maxIterations)
            && r.state.warnings == s.warnings + (if r.exit == Capped then [MaxIterationsWarning(maxIterations)] else [])
            && (r.exit == FetchRejected <==> r.outcome.Rejected?)
            && (r.outcome.Fulfilled? ==> r.outcome.value == r.state.errors)
            && (maxIterations <= 0 ==>
                  r.outcome == Fulfilled([]) && r.state.queryCalls == s.queryCalls
                  && r.state.totalProcessed == 0 && r.state.totalAttempts == 0)
  {
    LoopIterations(env, cfg, maxIterations, Reset(s), processFn, [], 0,
                   Loop(env, cfg, maxIterations, Reset(s), processFn, [], 0));
    LoopOutcome(env, cfg, maxIterations, Reset(s), processFn, [], 0);
    LoopLogs(env, cfg, maxIterations, Reset(s), processFn, [], 0);
  }

  // ---------------------------------------------------------------------------
  // Records that always succeed or always fail
  // ---------------------------------------------------------------------------

  /** A record whose work and whose mark succeed on every call. */
  ghost predicate AlwaysSucceeds(env: Env, processFn: ProcessFunction, record: RecordData)
  {
    && (forall n :: processFn(record, n).Fulfilled?)
    && (forall n :: env.repository.markAsProcessed(record.accountId, record.runTime, n).Fulfilled?)
  }

  /** A record whose work fails on every call. */
  ghost predicate AlwaysFails(processFn: ProcessFunction, record: RecordData)
  {
    forall n :: processFn(record, n).Rejected?
  }

  ghost predicate Determined(env: Env, processFn: ProcessFunction, records: seq<RecordData>)
  {
    forall i :: 0 <= i < |records| ==> AlwaysSucceeds(env, processFn, records[i]) || AlwaysFails(processFn, records[i])
  }

  /** Each result is fulfilled exactly when its record always succeeds. */
  ghost predicate ResultsFollow(env: Env, processFn: ProcessFunction, records: seq<RecordData>, results: seq<Settled<()>>)
  {
    && |results| == |records|
    && forall i :: 0 <= i < |records| ==> (results[i].Fulfilled? <==> AlwaysSucceeds(env, processFn, records[i]))
  }

  /** A record that always succeeds is processed and marked at the first try,
      with no failed attempt; one that always fails is rejected, is never
      counted and is never marked. */
  lemma ProcessRecordDetermined(env: Env, cfg: ProcessorConfig, s: State, processFn: ProcessFunction, record: RecordData)
    ensures var r := ProcessRecord(env, cfg, s, processFn, record);
            && (AlwaysSucceeds(env, processFn, record) && cfg.maxRetries >= 0 ==>
                  r.outcome == Fulfilled(()) && r.state.totalProcessed == s.totalProcessed + 1
                  && r.state.totalAttempts == s.totalAttempts)
            && (AlwaysFails(processFn, record) ==>
                  r.outcome.Rejected? && r.state.totalProcessed == s.totalProcessed && r.state.markCalls == s.markCalls)
  {
    WorkAttempts(env, cfg, s, processFn, record);
    var w := RetryTask(env, cfg, s, Work(processFn, record));
    if AlwaysSucceeds(env, processFn, record) && cfg.maxRetries >= 0 {
      assert processFn(record, s.workCalls).Fulfilled?;
      assert w.outcome.Fulfilled?;
      MarkAttempts(env, cfg, w.state, record);
      var m := MarkRecord(env, cfg, w.state, record);
      assert env.repository.markAsProcessed(record.accountId, record.runTime, w.state.markCalls).Fulfilled?;
      assert m.outcome.Fulfilled?;
    }
  }

  lemma {:induction false} RunChunkDetermined(env: Env, cfg: ProcessorConfig, s: State, processFn: ProcessFunction,
                                              chunk: seq<RecordData>)
    requires cfg.maxRetries >= 0
    requires Determined(env, processFn, chunk)
    ensures var run := RunChunk(env, cfg, s, processFn, chunk);
            && ResultsFollow(env, processFn, chunk, run.results)
            && run.state.totalProcessed == s.totalProcessed + CountFulfilled(run.results)
            && (CountFulfilled(run.results) == |chunk| ==> run.state.totalAttempts == s.totalAttempts)
    decreases |chunk|
  {
    if chunk != [] {
      var n := |chunk| - 1;
      RunChunkDetermined(env, cfg, s, processFn, chunk[..n]);
      var before := RunChunk(env, cfg, s, processFn, chunk[..n]);
      ProcessRecordDetermined(env, cfg, before.state, processFn, chunk[n]);
      var last := ProcessRecord(env, cfg, before.state, processFn, chunk[n]);
      var results := before.results + [last.outcome];
      assert results[..n] == before.results;
      assert AlwaysSucceeds(env, processFn, chunk[n]) ==> !AlwaysFails(processFn, chunk[n]) by {
        if AlwaysSucceeds(env, processFn, chunk[n]) {
          assert processFn(chunk[n], 0).Fulfilled?;
        }
      }
      if CountFulfilled(results) == |chunk| {
        assert last.outcome.Fulfilled?;
      }
    }
  }

  lemma {:induction false} BatchChunksDetermined(env: Env, cfg: ProcessorConfig, s: State, processFn: ProcessFunction,
                                                 chunks: seq<seq<RecordData>>)
    requires cfg.maxRetries >= 0
    requires Determined(env, processFn, Flatten(chunks))
    ensures var b := BatchChunks(env, cfg, s, processFn, chunks);
            && ResultsFollow(env, processFn, Flatten(chunks), b.results)
            && b.state.totalProcessed == s.totalProcessed + CountFulfilled(b.results)
            && (CountFulfilled(b.results) == |Flatten(chunks)| ==> b.state.totalAttempts == s.totalAttempts)
    decreases |chunks|
  {
    if chunks != [] {
      var n := |chunks| - 1;
      var init, last := chunks[..n], chunks[n];
      assert chunks == init + [last];
      FlattenSnoc(init, last);
      DeterminedSplit(env, processFn, Flatten(init), last);
      BatchChunksDetermined(env, cfg, s, processFn, init);
      var before := BatchChunks(env, cfg, s, processFn, init);
      RunChunkDetermined(env, cfg, before.state, processFn, last);
      var run := RunChunk(env, cfg, before.state, processFn, last);
      CountFulfilledAppend(before.results, run.results);
      ResultsFollowAppend(env, processFn, Flatten(init), before.results, last, run.results);
    }
  }

  lemma DeterminedSplit(env: Env, processFn: ProcessFunction, xs: seq<RecordData>, ys: seq<RecordData>)
    requires Determined(env, processFn, xs + ys)
    ensures Determined(env, processFn, xs) && Determined(env, processFn, ys)
  {
    forall i | 0 <= i < |xs|
      ensures AlwaysSucceeds(env, processFn, xs[i]) || AlwaysFails(processFn, xs[i])
    {
      assert (xs + ys)[i] == xs[i];
    }
    forall i | 0 <= i < |ys|
      ensures AlwaysSucceeds(env, processFn, ys[i]) || AlwaysFails(processFn, ys[i])
    {
      assert (xs + ys)[|xs| + i] == ys[i];
    }
  }

  lemma ResultsFollowAppend(env: Env, processFn: ProcessFunction, xs: seq<RecordData>, xr: seq<Settled<()>>,
                            ys: seq<RecordData>, yr: seq<Settled<()>>)
    requires ResultsFollow(env, processFn, xs, xr) && ResultsFollow(env, processFn, ys, yr)
    ensures ResultsFollow(env, processFn, xs + ys, xr + yr)
  {
    forall i | 0 <= i < |xs + ys|
      ensures (xr + yr)[i].Fulfilled? <==> AlwaysSucceeds(env, processFn, (xs + ys)[i])
    {
      if i >= |xs| {
        assert (xr + yr)[i] == yr[i - |xs|] && (xs + ys)[i] == ys[i - |xs|];
      }
    }
  }

  /** When every record of a batch always succeeds or always fails, the
      batch's results follow its records, and exactly the succeeding ones are
      counted as processed; a batch of succeeding records costs no failed attempt. */
  lemma BatchDetermined(env: Env, cfg: ProcessorConfig, s: State, processFn: ProcessFunction, records: seq<RecordData>)
    requires cfg.maxWorkers > 0 && cfg.maxRetries >= 0
    requires Determined(env, processFn, records)
    ensures var b := Batch(env, cfg, s, processFn, records);
            && ResultsFollow(env, processFn, records, b.results)
            && b.state.totalProcessed == s.totalProcessed + CountFulfilled(b.results)
            && (CountFulfilled(b.results) == |records| ==> b.state.totalAttempts == s.totalAttempts)
  {
    ChunksPartition(records, cfg.maxWorkers);
    BatchChunksDetermined(env, cfg, s, processFn, Chunks(records, cfg.maxWorkers));
  }

  // ---------------------------------------------------------------------------
  // Whole runs
  // ---------------------------------------------------------------------------

  /** The records that do not always succeed, in input order. */
  ghost function FailingRecords(env: Env, processFn: ProcessFunction, records: seq<RecordData>): (failing: seq<RecordData>)
    ensures |failing| <= |records|
  {
    if records == [] then []
    else
      var n := |records| - 1;
      FailingRecords(env, processFn, records[..n])
      + (if AlwaysSucceeds(env, processFn, records[n]) then [] else [records[n]])
  }

  /** When the results follow their records, the settlement hands back exactly
      the failing records, with one error each carrying that record's keys, and
      the fulfilled results are the others. */
  lemma {:induction false} SettleFollowing(env: Env, processFn: ProcessFunction, records: seq<RecordData>,
                                           results: seq<Settled<()>>)
    requires ResultsFollow(env, processFn, records, results)
    ensures var settled := Settle(records, results);
            var failing := FailingRecords(env, processFn, records);
            && settled.failed == failing
            && |settled.errors| == |failing|
            && (forall j :: 0 <= j < |failing| ==>
                  settled.errors[j].accountId == failing[j].accountId && settled.errors[j].runTime == failing[j].runTime)
            && CountFulfilled(results) == |records| - |failing|
    decreases |records|
  {
    if records != [] {
      var n := |records| - 1;
      assert ResultsFollow(env, processFn, records[..n], results[..n]);
      SettleFollowing(env, processFn, records[..n], results[..n]);
    }
  }

  /** A batch of records that each always succeed or always fail hands back
      the failing ones, appends one error per failing record carrying its keys,
      counts every other record as processed, and costs no failed attempt when
      none fails. */
  lemma BatchFailing(env: Env, cfg: ProcessorConfig, s: State, processFn: ProcessFunction, records: seq<RecordData>)
    requires cfg.maxWorkers > 0 && cfg.maxRetries >= 0
    requires Determined(env, processFn, records)
    ensures var b := Batch(env, cfg, s, processFn, records);
            var failing := FailingRecords(env, processFn, records);
            && b.failed == failing
            && |b.state.errors| == |s.errors| + |failing| && s.errors <= b.state.errors
            && (forall j :: 0 <= j < |failing| ==>
                  b.state.errors[|s.errors| + j].accountId == failing[j].accountId
                  && b.state.errors[|s.errors| + j].runTime == failing[j].runTime)
            && b.state.totalProcessed == s.totalProcessed + |records| - |failing|
            && (failing == [] ==> b.state.totalAttempts == s.totalAttempts)
            && b.state.queryCalls == s.queryCalls && b.state.warnings == s.warnings
  {
    BatchDetermined(env, cfg, s, processFn, records);
    BatchSettles(env, cfg, s, processFn, records);
    var b := Batch(env, cfg, s, processFn, records);
    SettleFollowing(env, processFn, records, b.results);
  }

  /** None of the records fails when all of them always succeed. */
  lemma {:induction false} NoneFailing(env: Env, processFn: ProcessFunction, records: seq<RecordData>)
    requires forall i :: 0 <= i < |records| ==> AlwaysSucceeds(env, processFn, records[i])
    ensures FailingRecords(env, processFn, records) == []
    decreases |records|
  {
    if records != [] {
      var n := |records| - 1;
      assert forall i :: 0 <= i < n ==> records[..n][i] == records[i];
      NoneFailing(env, processFn, records[..n]);
    }
  }

  /** Every error from index `from` on carries the keys of `record`. */
  ghost predicate KeyedFrom(errors: seq<ProcessError>, from: nat, record: RecordData)
  {
    forall k :: from <= k < |errors| ==>
      errors[k].accountId == record.accountId && errors[k].runTime == record.runTime
  }

  /** `after` is `before` with `n` more errors appended, each carrying the keys of `record`. */
  ghost predicate GrownBy(before: seq<ProcessError>, after: seq<ProcessError>, n: nat, record: RecordData)
  {
    before <= after && |after| == |before| + n && KeyedFrom(after, |before|, record)
  }

  /** One more error for `record` in front of a run of errors for it. */
  lemma GrownExtend(a: seq<ProcessError>, b: seq<ProcessError>, c: seq<ProcessError>, n: nat, record: RecordData)
    requires GrownBy(a, b, 1, record) && GrownBy(b, c, n, record)
    ensures GrownBy(a, c, n + 1, record)
  {
    PrefixTransitive(a, b, c);
    assert c[|a|] == b[|a|];
  }

  /** A record that always fails does not always succeed. */
  lemma FailsNotSucceeds(env: Env, processFn: ProcessFunction, record: RecordData)
    requires AlwaysFails(processFn, record)
    ensures !AlwaysSucceeds(env, processFn, record)
  {
    assert processFn(record, 0).Rejected?;
  }

  /** The store answers the query at its first call: one query, and nothing
      else the loop looks at changes. */
  lemma FirstQueryAnswered(env: Env, cfg: ProcessorConfig, s: State)
    requires cfg.maxRetries >= 0
    requires env.repository.queryUnprocessed(s.queryCalls).Fulfilled?
    ensures var f := RetryTask(env, cfg, s, QueryUnprocessed);
            && f.outcome == env.repository.queryUnprocessed(s.queryCalls)
            && f.state.queryCalls == s.queryCalls + 1
            && f.state.errors == s.errors && f.state.warnings == s.warnings
            && f.state.totalProcessed == s.totalProcessed && f.state.totalAttempts == s.totalAttempts
  {
    RecoversAfterRetryableFailures(env, s, QueryUnprocessed, cfg.maxRetries, cfg.backoffBaseMs, cfg.backoffMultiplier, 0);
    RetryCounts(env, s, QueryUnprocessed, cfg.maxRetries, cfg.backoffBaseMs, cfg.backoffMultiplier, 0, Undefined);
  }

  /** A batch of one record that always fails: the record is handed back, one
      error for it is appended, and nothing is processed or queried. */
  lemma FailingBatch(env: Env, cfg: ProcessorConfig, s: State, processFn: ProcessFunction, record: RecordData)
    requires cfg.maxWorkers > 0 && cfg.maxRetries >= 0
    requires AlwaysFails(processFn, record)
    ensures var b := Batch(env, cfg, s, processFn, [record]);
            && b.failed == [record]
            && GrownBy(s.errors, b.state.errors, 1, record)
            && b.state.totalProcessed == s.totalProcessed && b.state.queryCalls == s.queryCalls
  {
    FailsNotSucceeds(env, processFn, record);
    assert FailingRecords(env, processFn, [record]) == [record];
    BatchFailing(env, cfg, s, processFn, [record]);
  }

  /** One round over a record that always fails, as the loop runs it: the
      record is handed back and one error for it is appended. */
  lemma FailingRound(env: Env, cfg: ProcessorConfig, maxIterations: int, s: State, processFn: ProcessFunction,
                     record: RecordData, iteration: nat) returns (next: State)
    requires cfg.maxWorkers > 0 && cfg.maxRetries >= 0
    requires AlwaysFails(processFn, record) && iteration < maxIterations
    ensures Loop(env, cfg, maxIterations, s, processFn, [record], iteration)
            == Loop(env, cfg, maxIterations, next, processFn, [record], iteration + 1)
    ensures GrownBy(s.errors, next.errors, 1, record)
    ensures next.totalProcessed == s.totalProcessed && next.queryCalls == s.queryCalls
  {
    FailingBatch(env, cfg, s, processFn, record);
    next := Batch(env, cfg, s, processFn, [record]).state;
    LoopContinues(env, cfg, maxIterations, s, processFn, [record], iteration, [record], s);
  }

  /** One record that always fails, handed back round after round: the store
      is never queried again, nothing is counted as processed, and the cap
      stops the loop. */
  lemma {:induction false} FailingRecordLoop(env: Env, cfg: ProcessorConfig, maxIterations: int, s: State,
                                             processFn: ProcessFunction, record: RecordData, iteration: nat,
                                             r: LoopRun)
    requires cfg.maxWorkers > 0 && cfg.maxRetries >= 0
    requires AlwaysFails(processFn, record) && iteration <= maxIterations
    requires r == Loop(env, cfg, maxIterations, s, processFn, [record], iteration)
    ensures r.exit == Capped
    ensures r.state.totalProcessed == s.totalProcessed && r.state.queryCalls == s.queryCalls
    decreases maxIterations - iteration
  {
    if iteration < maxIterations {
      var next := FailingRound(env, cfg, maxIterations, s, processFn, record, iteration);
      FailingRecordLoop(env, cfg, maxIterations, next, processFn, record, iteration + 1, r);
    }
  }

  /** The same rounds, seen from the error list: every round appends one
      error, carrying the record's keys, and nothing is ever removed. */
  lemma {:induction false} FailingRecordErrors(env: Env, cfg: ProcessorConfig, maxIterations: int, s: State,
                                               processFn: ProcessFunction, record: RecordData, iteration: nat,
                                               r: LoopRun)
    requires cfg.maxWorkers > 0 && cfg.maxRetries >= 0
    requires AlwaysFails(processFn, record) && iteration <= maxIterations
    requires r == Loop(env, cfg, maxIterations, s, processFn, [record], iteration)
    ensures GrownBy(s.errors, r.state.errors, maxIterations - iteration, record)
    decreases maxIterations - iteration
  {
    if iteration < maxIterations {
      var next := FailingRound(env, cfg, maxIterations, s, processFn, record, iteration);
      FailingRecordErrors(env, cfg, maxIterations, next, processFn, record, iteration + 1, r);
      GrownExtend(s.errors, next.errors, r.state.errors, maxIterations - (iteration + 1), record);
    }
  }

  /** The first round of `processAll` when the store offers records that each
      always succeed or always fail: one query, then one batch that leaves an
      error for each failing record, counts the others as processed, and hands
      the failing ones to the second round. */
  lemma FirstRound(env: Env, cfg: ProcessorConfig, maxIterations: int, s: State, processFn: ProcessFunction,
                   records: seq<RecordData>) returns (next: State)
    requires cfg.maxWorkers > 0 && cfg.maxRetries >= 0 && maxIterations >= 1 && |records| > 0
    requires env.repository.queryUnprocessed(s.queryCalls) == Fulfilled(records)
    requires Determined(env, processFn, records)
    ensures var failing := FailingRecords(env, processFn, records);
            && ProcessAll(env, cfg, maxIterations, s, processFn)
               == Loop(env, cfg, maxIterations, next, processFn, failing, 1)
            && |next.errors| == |failing|
            && (forall j :: 0 <= j < |failing| ==>
                  next.errors[j].accountId == failing[j].accountId && next.errors[j].runTime == failing[j].runTime)
            && next.totalProcessed == |records| - |failing|
            && (failing == [] ==> next.totalAttempts == 0)
            && next.queryCalls == s.queryCalls + 1
  {
    var s0 := Reset(s);
    FirstQueryAnswered(env, cfg, s0);
    var fetched := Fetch(env, cfg, s0, []);
    BatchFailing(env, cfg, fetched.state, processFn, records);
    var b := Batch(env, cfg, fetched.state, processFn, records);
    LoopContinues(env, cfg, maxIterations, s0, processFn, [], 0, records, fetched.state);
    next := b.state;
  }

  /** `processAll` over a store that offers one record whose work always
      fails: the store is queried once, the record is retried in every round
      until the cap stops the loop, and each round adds one error for it, so
      the run ends with `maxIterations` errors and nothing processed. */
  lemma AlwaysFailingRecord(env: Env, cfg: ProcessorConfig, maxIterations: int, s: State,
                            processFn: ProcessFunction, record: RecordData)
    requires cfg.maxWorkers > 0 && cfg.maxRetries >= 0 && maxIterations >= 1
    requires env.repository.queryUnprocessed(s.queryCalls) == Fulfilled([record])
    requires AlwaysFails(processFn, record)
    ensures var r := ProcessAll(env, cfg, maxIterations, s, processFn);
            && r.exit == Capped && r.outcome == Fulfilled(r.state.errors)
            && |r.state.errors| == maxIterations
            && KeyedFrom(r.state.errors, 0, record)
            && r.state.totalProcessed == 0
            && r.state.queryCalls == s.queryCalls + 1
            && r.state.warnings == s.warnings + [MaxIterationsWarning(maxIterations)]
  {
    FailsNotSucceeds(env, processFn, record);
    assert FailingRecords(env, processFn, [record]) == [record];
    var next := FirstRound(env, cfg, maxIterations, s, processFn, [record]);
    var r := Loop(env, cfg, maxIterations, next, processFn, [record], 1);
    FailingRecordLoop(env, cfg, maxIterations, next, processFn, record, 1, r);
    FailingRecordErrors(env, cfg, maxIterations, next, processFn, record, 1, r);
    assert GrownBy([], next.errors, 1, record);
    GrownExtend([], next.errors, r.state.errors, maxIterations - 1, record);
    ProcessAllShape(env, cfg, maxIterations, s, processFn);
  }

  /** `processAll` over a store that offers nothing: one query, no batch, no
      warning, and an empty error list. */
  lemma EmptyStore(env: Env, cfg: ProcessorConfig, maxIterations: int, s: State, processFn: ProcessFunction)
    requires cfg.maxWorkers > 0 && cfg.maxRetries >= 0 && maxIterations >= 1
    requires env.repository.queryUnprocessed(s.queryCalls) == Fulfilled([])
    ensures var r := ProcessAll(env, cfg, maxIterations, s, processFn);
            && r.outcome == Fulfilled([]) && r.exit == NoCandidates && r.iterations == 0
            && r.state.warnings == s.warnings && r.state.queryCalls == s.queryCalls + 1
            && r.state.totalProcessed == 0 && r.state.totalAttempts == 0
  {
    FirstQueryAnswered(env, cfg, Reset(s));
  }

  /** `processAll` over a store that offers records which all succeed, and
      nothing on the next query: one batch, every record processed and marked
      at its first try, no error and no failed attempt; the store is queried a
      second time before the loop stops, so the rate is 100. */
  lemma CleanRun(env: Env, cfg: ProcessorConfig, maxIterations: int, s: State, processFn: ProcessFunction,
                 records: seq<RecordData>)
    requires cfg.maxWorkers > 0 && cfg.maxRetries >= 0 && maxIterations >= 2 && |records| > 0
    requires env.repository.queryUnprocessed(s.queryCalls) == Fulfilled(records)
    requires env.repository.queryUnprocessed(s.queryCalls + 1) == Fulfilled([])
    requires forall i :: 0 <= i < |records| ==> AlwaysSucceeds(env, processFn, records[i])
    ensures var r := ProcessAll(env, cfg, maxIterations, s, processFn);
            && r.outcome == Fulfilled([]) && r.exit == NoCandidates && r.iterations == 1
            && r.state.totalProcessed == |records| && r.state.totalAttempts == 0
            && r.state.queryCalls == s.queryCalls + 2
            && Metrics(r.state).successRate == 100.0
  {
    NoneFailing(env, processFn, records);
    var next := FirstRound(env, cfg, maxIterations, s, processFn, records);
    FirstQueryAnswered(env, cfg, next);
    SuccessRateRange(ProcessAll(env, cfg, maxIterations, s, processFn).state);
  }

  /** The cap is checked before candidates are fetched, so it warns even when
      nothing is outstanding: with one round allowed, a batch in which every
      record succeeds still ends with the max-iterations warning. */
  lemma WarnsWithNothingOutstanding(env: Env, cfg: ProcessorConfig, s: State, processFn: ProcessFunction,
                                    records: seq<RecordData>)
    requires cfg.maxWorkers > 0 && cfg.maxRetries >= 0 && |records| > 0
    requires env.repository.queryUnprocessed(s.queryCalls) == Fulfilled(records)
    requires forall i :: 0 <= i < |records| ==> AlwaysSucceeds(env, processFn, records[i])
    ensures var r := ProcessAll(env, cfg, 1, s, processFn);
            && r.outcome == Fulfilled([]) && r.exit == Capped
            && r.state.totalProcessed == |records|
            && r.state.warnings == s.warnings + [MaxIterationsWarning(1)]
  {
    NoneFailing(env, processFn, records);
    var next := FirstRound(env, cfg, 1, s, processFn, records);
    ProcessAllShape(env, cfg, 1, s, processFn);
  }

  /** The rate is not bounded below by zero: a record that succeeds and one
      that always fails, offered once by the store, leave one processed record
      and one error per round, so with two rounds or more the rate is negative. */
  lemma NegativeSuccessRate(env: Env, cfg: ProcessorConfig, maxIterations: int, s: State,
                            processFn: ProcessFunction, good: RecordData, bad: RecordData)
    requires cfg.maxWorkers > 0 && cfg.maxRetries >= 0 && maxIterations >= 2
    requires env.repository.queryUnprocessed(s.queryCalls) == Fulfilled([good, bad])
    requires AlwaysSucceeds(env, processFn, good) && AlwaysFails(processFn, bad)
    ensures var r := ProcessAll(env, cfg, maxIterations, s, processFn);
            && r.exit == Capped
            && r.state.totalProcessed == 1 && |r.state.errors| == maxIterations
            && Metrics(r.state).successRate < 0.0
  {
    FailsNotSucceeds(env, processFn, bad);
    assert [good, bad][..1] == [good];
    assert FailingRecords(env, processFn, [good, bad]) == [bad];
    var next := FirstRound(env, cfg, maxIterations, s, processFn, [good, bad]);
    var r := Loop(env, cfg, maxIterations, next, processFn, [bad], 1);
    FailingRecordLoop(env, cfg, maxIterations, next, processFn, bad, 1, r);
    FailingRecordErrors(env, cfg, maxIterations, next, processFn, bad, 1, r);
    SuccessRateRange(ProcessAll(env, cfg, maxIterations, s, processFn).state);
  }

  /** The rate `getMetrics` reports is 0 until something was processed, never
      above 100, exactly 100 when something was processed and no error was
      recorded, and negative exactly when there are more errors than processed
      records. */
  lemma SuccessRateRange(s: State)
    ensures var m := Metrics(s);
            && (s.totalProcessed <= 0 ==> m.successRate == 0.0)
            && m.successRate <= 100.0
            && (m.successRate == 100.0 <==> s.totalProcessed > 0 && s.errors == [])
            && (m.successRate < 0.0 <==> s.totalProcessed > 0 && |s.errors| > s.totalProcessed)
  {
    if s.totalProcessed > 0 {
      var tp := s.totalProcessed as real;
      var q := (s.totalProcessed - |s.errors|) as real / tp;
      assert q * tp == tp - |s.errors| as real;
    }
  }
}
