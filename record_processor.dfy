/** The RecordProcessor itself: its fields, and every method proved to leave
    the state and return the outcome that ProcessorSpec prescribes. */
module Processor {
  import opened JsRuntime
  import opened Records
  import opened Classifier
  import Chunking
  import S = ProcessorSpec

  class RecordProcessor {
    // Fixed at construction.
    const repository: Repository
    const config: ProcessorConfig
    const maxIterations: int
    /** `Math.random`: its n-th call returns `random(n)`. */
    const random: nat -> real

    // The processor's own fields.
    var errors: seq<ProcessError>
    var totalProcessed: int
    var totalAttempts: int

    // How many times each collaborator has been called; they index the oracles.
    var queryCalls: nat
    var markCalls: nat
    var workCalls: nat
    var randomCalls: nat

    // The delays slept for and the messages logged, in order.
    ghost var sleepLog: seq<real>
    ghost var debugLog: seq<string>
    ghost var warnLog: seq<string>

    function Collaborators(): S.Env
    {
      S.Env(repository, random, IsRetryableError)
    }

    ghost function Abs(): S.State
      reads this
    {
      S.State(errors, totalProcessed, totalAttempts, queryCalls, markCalls, workCalls, randomCalls,
              sleepLog, debugLog, warnLog)
    }

    /** The constructor: the caller's partial config over the defaults, and
        `maxIterations` read on its own with 10 as its default. */
    constructor (options: PartialConfig, repository: Repository, random: nat -> real)
      ensures this.repository == repository && this.random == random
      ensures config == MergeConfig(options)
      ensures maxIterations == Or(options.maxIterations, 10) == config.maxIterations
      ensures Abs() == S.State([], 0, 0, 0, 0, 0, 0, [], [], [])
      ensures GetMetrics() == ProcessorMetrics(0, 0, 0, 0.0)
      ensures GetErrors() == []
    {
      this.repository := repository;
      this.config := MergeConfig(options);
      this.maxIterations := Or(options.maxIterations, 10);
      this.random := random;
      errors, totalProcessed, totalAttempts := [], 0, 0;
      queryCalls, markCalls, workCalls, randomCalls := 0, 0, 0, 0;
      sleepLog, debugLog, warnLog := [], [], [];
    }

    /** One `await task()`: the store's query, the mark, or the work closure
        (`await processFn(record); this.totalProcessed++`). */
    method CallTask(t: S.Task) returns (settled: Settled<seq<RecordData>>)
      modifies this
      ensures S.Step(settled, Abs()) == S.Call(Collaborators(), old(Abs()), t)
    {
      match t
      case QueryUnprocessed =>
        settled := repository.queryUnprocessed(queryCalls);
        queryCalls := queryCalls + 1;
      case Work(processFn, record) =>
        var o := processFn(record, workCalls);
        workCalls := workCalls + 1;
        if o.Fulfilled? {
          totalProcessed := totalProcessed + 1;
          settled := Fulfilled([]);
        } else {
          settled := Rejected(o.reason);
        }
      case MarkAsProcessed(accountId, runTime) =>
        var o := repository.markAsProcessed(accountId, runTime, markCalls);
        markCalls := markCalls + 1;
        settled := S.Unit(o);
    }

    /** `exponentialBackoffWithJitter(task, maxRetries, baseMs, multiplier)`. */
    method ExponentialBackoffWithJitter(t: S.Task, maxRetries: int, baseMs: real, multiplier: real)
      returns (settled: Settled<seq<RecordData>>)
      modifies this
      ensures S.Step(settled, Abs())
           == S.Retry(Collaborators(), old(Abs()), t, maxRetries, baseMs, multiplier, 0, Undefined)
    {
      var lastError: Thrown := Undefined;
      var attempt: nat := 0;
      while attempt <= maxRetries
        invariant attempt == 0 || attempt <= maxRetries
        invariant S.Retry(Collaborators(), old(Abs()), t, maxRetries, baseMs, multiplier, 0, Undefined)
               == S.Retry(Collaborators(), Abs(), t, maxRetries, baseMs, multiplier, attempt, lastError)
        decreases maxRetries - attempt
      {
        var outcome := CallTask(t);
        if outcome.Fulfilled? {
          settled := outcome;
          return;
        }
        ghost var afterCall := Abs();
        totalAttempts := totalAttempts + 1;
        debugLog := debugLog + [S.DebugMessage(outcome.reason)];
        assert Abs() == S.RecordFailure(afterCall, outcome.reason);
        lastError := outcome.reason;
        if !IsRetryableError(outcome.reason) || attempt == maxRetries {
          settled := Rejected(outcome.reason);
          return;
        }
        ghost var failed := Abs();
        var randomValue := random(randomCalls);
        randomCalls := randomCalls + 1;
        var delayMs := S.JitteredDelay(baseMs, multiplier, attempt, randomValue);
        sleepLog := sleepLog + [delayMs];
        assert Abs() == S.SleepBeforeRetry(Collaborators(), failed, baseMs, multiplier, attempt);
        attempt := attempt + 1;
      }
      settled := Rejected(lastError);
    }

    /** `fetchUnprocessedRecords()`: the store's query under the retry wrapper. */
    method FetchUnprocessedRecords() returns (settled: Settled<seq<RecordData>>)
      modifies this
      ensures S.Step(settled, Abs()) == S.RetryTask(Collaborators(), config, old(Abs()), S.QueryUnprocessed)
    {
      settled := ExponentialBackoffWithJitter(S.QueryUnprocessed, config.maxRetries, config.backoffBaseMs,
                                              config.backoffMultiplier);
    }

    /** `markAsProcessed(record)`. */
    method MarkAsProcessed(record: RecordData) returns (settled: Settled<()>)
      modifies this
      ensures S.Step(settled, Abs()) == S.MarkRecord(Collaborators(), config, old(Abs()), record)
    {
      var outcome := ExponentialBackoffWithJitter(S.MarkAsProcessed(record.accountId, record.runTime),
                                                  config.maxRetries, config.backoffBaseMs,
                                                  config.backoffMultiplier);
      settled := S.ToUnit(outcome);
    }

    /** `processRecord(record, processFn)`. */
    method ProcessRecord(record: RecordData, processFn: S.ProcessFunction) returns (settled: Settled<()>)
      modifies this
      ensures S.Step(settled, Abs()) == S.ProcessRecord(Collaborators(), config, old(Abs()), processFn, record)
    {
      var work := ExponentialBackoffWithJitter(S.Work(processFn, record), config.maxRetries,
                                               config.backoffBaseMs, config.backoffMultiplier);
      if work.Rejected? {
        settled := Rejected(work.reason);
        return;
      }
      settled := MarkAsProcessed(record);
    }

    /** `Promise.allSettled(chunk.map((record) => this.processRecord(record, processFn)))`,
        settled one record after the other. */
    method SettleAll(chunk: seq<RecordData>, processFn: S.ProcessFunction) returns (results: seq<Settled<()>>)
      modifies this
      ensures S.ChunkRun(results, Abs()) == S.RunChunk(Collaborators(), config, old(Abs()), processFn, chunk)
    {
      results := [];
      var i := 0;
      while i < |chunk|
        invariant 0 <= i <= |chunk|
        invariant S.ChunkRun(results, Abs()) == S.RunChunk(Collaborators(), config, old(Abs()), processFn, chunk[..i])
      {
        assert chunk[..i + 1][..i] == chunk[..i];
        var settled := ProcessRecord(chunk[i], processFn);
        results := results + [settled];
        i := i + 1;
      }
      assert chunk[..|chunk|] == chunk;
    }

    /** `chunkRecords(records, chunkSize)`. */
    method ChunkRecords(records: seq<RecordData>, chunkSize: int) returns (chunks: seq<seq<RecordData>>)
      requires chunkSize > 0
      ensures chunks == Chunking.Chunks(records, chunkSize)
    {
      chunks := [];
      var i := 0;
      while i < |records|
        invariant 0 <= i
        invariant i < |records| ==> Chunking.Chunks(records, chunkSize) == chunks + Chunking.Chunks(records[i..], chunkSize)
        invariant i >= |records| ==> Chunking.Chunks(records, chunkSize) == chunks
        decreases |records| - i
      {
        Chunking.ChunksFrom(records, chunkSize, i);
        chunks := chunks + [records[i..Chunking.Min(i + chunkSize, |records|)]];
        i := i + chunkSize;
      }
    }

    /** The `results.forEach(...)` of `processBatch`: every rejected result
        appends an error with its record's keys and message, and the record to
        the failed ones. */
    method RecordRejections(chunk: seq<RecordData>, results: seq<Settled<()>>, failedBefore: seq<RecordData>)
      returns (failedRecords: seq<RecordData>)
      requires |results| == |chunk|
      modifies this`errors
      ensures Abs() == old(Abs()).(errors := old(errors) + S.Settle(chunk, results).errors)
      ensures failedRecords == failedBefore + S.Settle(chunk, results).failed
    {
      failedRecords := failedBefore;
      var index := 0;
      while index < |results|
        invariant 0 <= index <= |results|
        invariant errors == old(errors) + S.Settle(chunk[..index], results[..index]).errors
        invariant failedRecords == failedBefore + S.Settle(chunk[..index], results[..index]).failed
      {
        assert chunk[..index + 1][..index] == chunk[..index];
        assert results[..index + 1][..index] == results[..index];
        if results[index].Rejected? {
          var record := chunk[index];
          errors := errors + [ProcessError(record.accountId, record.runTime,
                                           ExtractErrorMessage(results[index].reason))];
          failedRecords := failedRecords + [record];
        }
        index := index + 1;
      }
      assert chunk[..|chunk|] == chunk && results[..|results|] == results;
    }

    /** `processBatch(records, processFn)`. */
    method ProcessBatch(records: seq<RecordData>, processFn: S.ProcessFunction) returns (failedRecords: seq<RecordData>)
      requires config.maxWorkers > 0
      modifies this
      ensures var batch := S.Batch(Collaborators(), config, old(Abs()), processFn, records);
              failedRecords == batch.failed && Abs() == batch.state
    {
      var chunks := ChunkRecords(records, config.maxWorkers);
      failedRecords := [];
      ghost var allResults: seq<Settled<()>> := [];
      var c := 0;
      while c < |chunks|
        invariant 0 <= c <= |chunks|
        invariant S.BatchChunks(Collaborators(), config, old(Abs()), processFn, chunks[..c])
               == S.BatchRun(allResults, failedRecords, Abs())
      {
        S.BatchChunksSnoc(Collaborators(), config, old(Abs()), processFn, chunks, c);
        var results := SettleAll(chunks[c], processFn);
        failedRecords := RecordRejections(chunks[c], results, failedRecords);
        allResults := allResults + results;
        c := c + 1;
      }
      assert chunks[..|chunks|] == chunks;
    }

    /** `processAll(processFn)`: fulfilled with the error list itself (the one
        `getErrors()` returns), or rejected when fetching candidates fails. */
    method ProcessAll(processFn: S.ProcessFunction) returns (result: Settled<seq<ProcessError>>)
      requires config.maxWorkers > 0
      modifies this
      ensures var run := S.ProcessAll(Collaborators(), config, maxIterations, old(Abs()), processFn);
              result == run.outcome && Abs() == run.state
      ensures result.Fulfilled? ==> result.value == errors
    {
      errors := [];
      totalProcessed := 0;
      totalAttempts := 0;
      ghost var env := Collaborators();
      ghost var run := S.ProcessAll(env, config, maxIterations, old(Abs()), processFn);
      var recordsToRetry: seq<RecordData> := [];
      var iteration: nat := 0;
      while true
        invariant run == S.Loop(env, config, maxIterations, Abs(), processFn, recordsToRetry, iteration)
        decreases maxIterations - iteration
      {
        ghost var before := Abs();
        if iteration >= maxIterations {
          warnLog := warnLog + [S.MaxIterationsWarning(maxIterations)];
          break;
        }
        var unprocessedRecords: seq<RecordData>;
        if |recordsToRetry| > 0 {
          unprocessedRecords := recordsToRetry;
        } else {
          var fetched := FetchUnprocessedRecords();
          if fetched.Rejected? {
            result := Rejected(fetched.reason);
            return;
          }
          unprocessedRecords := fetched.value;
        }
        assert S.Fetch(env, config, before, recordsToRetry) == S.Step(Fulfilled(unprocessedRecords), Abs());
        if |unprocessedRecords| == 0 {
          break;
        }
        S.LoopContinues(env, config, maxIterations, before, processFn, recordsToRetry, iteration,
                        unprocessedRecords, Abs());
        recordsToRetry := ProcessBatch(unprocessedRecords, processFn);
        iteration := iteration + 1;
      }
      result := Fulfilled(errors);
    }

    /** `getErrors()`: the accumulator itself. */
    function GetErrors(): (es: seq<ProcessError>)
      reads this
      ensures es == Abs().errors
    {
      errors
    }

    /** `getMetrics()`: a read of the counters, so it changes nothing. */
    function GetMetrics(): (metrics: ProcessorMetrics)
      reads this
      ensures metrics == S.Metrics(Abs())
      ensures metrics.unprocessedErrors == |GetErrors()|
    {
      S.MetricsOf(totalProcessed, totalAttempts, |errors|)
    }
  }
}
