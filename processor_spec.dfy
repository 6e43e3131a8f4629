/** The reference behaviour of a RecordProcessor, as functions from the state
    before an operation to the outcome and the state after it. The class in
    record_processor.dfy is proved to follow these functions step for step;
    processor_lemmas.dfy proves what they promise.

    The collaborators are oracles indexed by how many times each has been
    called: the n-th `queryUnprocessed()`, the n-th `markAsProcessed(...)`, the
    n-th call of a work function and the n-th `Math.random()`. Chunks settle
    in input order, one record after the other (see `RunChunk`). */
module ProcessorSpec {
  import opened JsRuntime
  import opened Records
  import opened Classifier
  import opened Chunking

  /** A work function: the n-th call of it, on `record`, settles as `processFn(record, n)`. */
  type ProcessFunction = (RecordData, nat) -> Settled<()>

  /** What an operation consults besides the state: the store and
      `Math.random` (values in [0, 1)), fixed at construction, and the
      classifier the retry wrapper asks, `this.isRetryableError` (a public
      method, which a RecordProcessor implements as
      Classifier.IsRetryableError). */
  datatype Env = Env(repository: Repository, random: nat -> real, isRetryable: Thrown -> bool)

  /** Everything an operation may read or change: the processor's fields, the
      collaborators' call counters, and what was slept for and logged. */
  datatype State = State(
    errors: seq<ProcessError>,
    totalProcessed: int,
    totalAttempts: int,
    queryCalls: nat,
    markCalls: nat,
    workCalls: nat,
    randomCalls: nat,
    sleeps: seq<real>,
    debugs: seq<string>,
    warnings: seq<string>)

  /** The three tasks the retry wrapper is used for. The two unit-valued ones
      settle with the empty sequence. */
  datatype Task =
    | QueryUnprocessed
    | Work(processFn: ProcessFunction, record: RecordData)
    | MarkAsProcessed(accountId: string, runTime: string)

  /** An outcome together with the state it leaves. */
  datatype Step<T> = Step(outcome: Settled<T>, state: State)

  /** How many times the collaborator behind `t` has been called. */
  function TaskCalls(s: State, t: Task): nat
  {
    match t
    case QueryUnprocessed => s.queryCalls
    case Work(_, _) => s.workCalls
    case MarkAsProcessed(_, _) => s.markCalls
  }

  function Unit(o: Settled<()>): Settled<seq<RecordData>>
  {
    match o
    case Fulfilled(_) => Fulfilled([])
    case Rejected(e) => Rejected(e)
  }

  /** One call of a task. The work task is `await processFn(record);
      this.totalProcessed++`, so the counter moves only when the call succeeds. */
  function Call(env: Env, s: State, t: Task): Step<seq<RecordData>>
  {
    match t
    case QueryUnprocessed =>
      Step(env.repository.queryUnprocessed(s.queryCalls), s.(queryCalls := s.queryCalls + 1))
    case Work(processFn, record) =>
      var o := processFn(record, s.workCalls);
      var s' := s.(workCalls := s.workCalls + 1);
      if o.Fulfilled? then Step(Fulfilled([]), s'.(totalProcessed := s'.totalProcessed + 1))
      else Step(Rejected(o.reason), s')
    case MarkAsProcessed(accountId, runTime) =>
      Step(Unit(env.repository.markAsProcessed(accountId, runTime, s.markCalls)), s.(markCalls := s.markCalls + 1))
  }

  function DebugMessage(reason: Thrown): string
  {
    "Processing failed: " + ExtractErrorMessage(reason)
  }

  /** The sleep requested after a retryable failure at 0-based `attempt`, with
      `random` the value `Math.random()` returned for it. */
  function JitteredDelay(baseMs: real, multiplier: real, attempt: nat, random: real): real
  {
    baseMs * Pow(multiplier, attempt) + random * baseMs * 0.1
  }

  /** After a failed call: `totalAttempts++` and the debug line. */
  function RecordFailure(s: State, error: Thrown): State
  {
    s.(totalAttempts := s.totalAttempts + 1, debugs := s.debugs + [DebugMessage(error)])
  }

  /** Before the next attempt: one `Math.random()` and one sleep. */
  function SleepBeforeRetry(env: Env, s: State, baseMs: real, multiplier: real, attempt: nat): State
  {
    s.(randomCalls := s.randomCalls + 1,
       sleeps := s.sleeps + [JitteredDelay(baseMs, multiplier, attempt, env.random(s.randomCalls))])
  }

  /** `exponentialBackoffWithJitter`, from loop iteration `attempt` on, with
      `lastError` the failure seen last (undefined before the first). */
  function Retry(env: Env, s: State, t: Task, maxRetries: int, baseMs: real, multiplier: real,
                 attempt: nat, lastError: Thrown): Step<seq<RecordData>>
    decreases maxRetries - attempt
  {
    if attempt > maxRetries then Step(Rejected(lastError), s)
    else
      var call := Call(env, s, t);
      if call.outcome.Fulfilled? then call
      else
        var error := call.outcome.reason;
        var failed := RecordFailure(call.state, error);
        if !env.isRetryable(error) || attempt == maxRetries then Step(Rejected(error), failed)
        else
          Retry(env, SleepBeforeRetry(env, failed, baseMs, multiplier, attempt), t, maxRetries, baseMs, multiplier,
                attempt + 1, error)
  }

  /** The retry wrapper as the processor calls it: from attempt 0, with its configured budget. */
  function RetryTask(env: Env, cfg: ProcessorConfig, s: State, t: Task): Step<seq<RecordData>>
  {
    Retry(env, s, t, cfg.maxRetries, cfg.backoffBaseMs, cfg.backoffMultiplier, 0, Undefined)
  }

  /** The outcome of a unit-valued task, with its value dropped. */
  function ToUnit(o: Settled<seq<RecordData>>): Settled<()>
  {
    match o
    case Fulfilled(_) => Fulfilled(())
    case Rejected(e) => Rejected(e)
  }

  /** `markAsProcessed(record)`: the store's mark under its own retry budget. */
  function MarkRecord(env: Env, cfg: ProcessorConfig, s: State, record: RecordData): Step<()>
  {
    var mark := RetryTask(env, cfg, s, MarkAsProcessed(record.accountId, record.runTime));
    Step(ToUnit(mark.outcome), mark.state)
  }

  /** `processRecord`: the work under its own retry budget, then, only if it
      succeeded, the mark under another. */
  function ProcessRecord(env: Env, cfg: ProcessorConfig, s: State, processFn: ProcessFunction,
                         record: RecordData): Step<()>
  {
    var work := RetryTask(env, cfg, s, Work(processFn, record));
    if work.outcome.Rejected? then Step(Rejected(work.outcome.reason), work.state)
    else MarkRecord(env, cfg, work.state, record)
  }

  /** What `Promise.allSettled(chunk.map(processRecord))` reports, one record after the other. */
  datatype ChunkRun = ChunkRun(results: seq<Settled<()>>, state: State)

  function RunChunk(env: Env, cfg: ProcessorConfig, s: State, processFn: ProcessFunction,
                    chunk: seq<RecordData>): (run: ChunkRun)
    ensures |run.results| == |chunk|
  {
    if chunk == [] then ChunkRun([], s)
    else
      var before := RunChunk(env, cfg, s, processFn, chunk[..|chunk| - 1]);
      var last := ProcessRecord(env, cfg, before.state, processFn, chunk[|chunk| - 1]);
      ChunkRun(before.results + [last.outcome], last.state)
  }

  /** The error recorded for a rejected record. */
  function ErrorFor(record: RecordData, reason: Thrown): ProcessError
  {
    ProcessError(record.accountId, record.runTime, ExtractErrorMessage(reason))
  }

  /** What `results.forEach(...)` appends: to the errors and to the failed records. */
  datatype Settlement = Settlement(errors: seq<ProcessError>, failed: seq<RecordData>)

  function Settle(records: seq<RecordData>, results: seq<Settled<()>>): Settlement
    requires |records| == |results|
  {
    if records == [] then Settlement([], [])
    else
      var n := |records| - 1;
      var before := Settle(records[..n], results[..n]);
      if results[n].Rejected? then
        Settlement(before.errors + [ErrorFor(records[n], results[n].reason)], before.failed + [records[n]])
      else before
  }

  /** The outcome of `processBatch`: every record's settled result (in input
      order), the failed records it returns, and the state it leaves. */
  datatype BatchRun = BatchRun(results: seq<Settled<()>>, failed: seq<RecordData>, state: State)

  /** One chunk: settle all its records, then record each rejection. */
  function ChunkStep(env: Env, cfg: ProcessorConfig, s: State, processFn: ProcessFunction,
                     chunk: seq<RecordData>): BatchRun
  {
    var run := RunChunk(env, cfg, s, processFn, chunk);
    var settled := Settle(chunk, run.results);
    BatchRun(run.results, settled.failed, run.state.(errors := run.state.errors + settled.errors))
  }

  function BatchChunks(env: Env, cfg: ProcessorConfig, s: State, processFn: ProcessFunction,
                       chunks: seq<seq<RecordData>>): BatchRun
  {
    if chunks == [] then BatchRun([], [], s)
    else
      var before := BatchChunks(env, cfg, s, processFn, chunks[..|chunks| - 1]);
      var last := ChunkStep(env, cfg, before.state, processFn, chunks[|chunks| - 1]);
      BatchRun(before.results + last.results, before.failed + last.failed, last.state)
  }

  /** The chunks up to and including chunk `c`: those before it, then its own step. */
  lemma BatchChunksSnoc(env: Env, cfg: ProcessorConfig, s: State, processFn: ProcessFunction,
                        chunks: seq<seq<RecordData>>, c: nat)
    requires c < |chunks|
    ensures var before := BatchChunks(env, cfg, s, processFn, chunks[..c]);
            var step := ChunkStep(env, cfg, before.state, processFn, chunks[c]);
            BatchChunks(env, cfg, s, processFn, chunks[..c + 1])
            == BatchRun(before.results + step.results, before.failed + step.failed, step.state)
  {
    assert chunks[..c + 1][..c] == chunks[..c];
  }

  /** `processBatch(records, processFn)`. */
  function Batch(env: Env, cfg: ProcessorConfig, s: State, processFn: ProcessFunction,
                 records: seq<RecordData>): BatchRun
    requires cfg.maxWorkers > 0
  {
    BatchChunks(env, cfg, s, processFn, Chunks(records, cfg.maxWorkers))
  }

  function MaxIterationsWarning(maxIterations: int): string
  {
    "Max iterations (" + IntString(maxIterations) + ") reached. Aborting to prevent infinite loop."
  }

  /** Why the outer loop stopped. */
  datatype Exit = Capped | NoCandidates | FetchRejected

  /** The outcome of `processAll`, with how many batches ran and why it stopped. */
  datatype LoopRun = LoopRun(outcome: Settled<seq<ProcessError>>, state: State, iterations: nat, exit: Exit)

  /** Where a round's candidates come from: the previous batch's failures when
      there are any, otherwise the store, under the retry wrapper. */
  function Fetch(env: Env, cfg: ProcessorConfig, s: State, recordsToRetry: seq<RecordData>): Step<seq<RecordData>>
  {
    if |recordsToRetry| > 0 then Step(Fulfilled(recordsToRetry), s)
    else RetryTask(env, cfg, s, QueryUnprocessed)
  }

  /** The outer loop from `iteration` on, with `recordsToRetry` the failures of the previous batch. */
  function Loop(env: Env, cfg: ProcessorConfig, maxIterations: int, s: State, processFn: ProcessFunction,
                recordsToRetry: seq<RecordData>, iteration: nat): LoopRun
    requires cfg.maxWorkers > 0
    decreases maxIterations - iteration
  {
    if iteration >= maxIterations then
      var s' := s.(warnings := s.warnings + [MaxIterationsWarning(maxIterations)]);
      LoopRun(Fulfilled(s'.errors), s', iteration, Capped)
    else
      var fetched := Fetch(env, cfg, s, recordsToRetry);
      if fetched.outcome.Rejected? then
        LoopRun(Rejected(fetched.outcome.reason), fetched.state, iteration, FetchRejected)
      else if |fetched.outcome.value| == 0 then
        LoopRun(Fulfilled(fetched.state.errors), fetched.state, iteration, NoCandidates)
      else
        var batch := Batch(env, cfg, fetched.state, processFn, fetched.outcome.value);
        Loop(env, cfg, maxIterations, batch.state, processFn, batch.failed, iteration + 1)
  }

  /** A round that fetched candidates runs them as a batch and goes on from
      the next iteration with the batch's failures. */
  lemma LoopContinues(env: Env, cfg: ProcessorConfig, maxIterations: int, s: State, processFn: ProcessFunction,
                      recordsToRetry: seq<RecordData>, iteration: nat, records: seq<RecordData>, fetchedState: State)
    requires cfg.maxWorkers > 0 && iteration < maxIterations && |records| > 0
    requires Fetch(env, cfg, s, recordsToRetry) == Step(Fulfilled(records), fetchedState)
    ensures var batch := Batch(env, cfg, fetchedState, processFn, records);
            Loop(env, cfg, maxIterations, s, processFn, recordsToRetry, iteration)
            == Loop(env, cfg, maxIterations, batch.state, processFn, batch.failed, iteration + 1)
  {
  }

  /** The state `processAll` starts its loop from. */
  function Reset(s: State): State
  {
    s.(errors := [], totalProcessed := 0, totalAttempts := 0)
  }

  /** `processAll(processFn)`. */
  function ProcessAll(env: Env, cfg: ProcessorConfig, maxIterations: int, s: State,
                      processFn: ProcessFunction): LoopRun
    requires cfg.maxWorkers > 0
  {
    Loop(env, cfg, maxIterations, Reset(s), processFn, [], 0)
  }

  /** The metrics `getMetrics()` reports for the given counters and number of errors. */
  function MetricsOf(totalProcessed: int, totalAttempts: int, errorCount: nat): ProcessorMetrics
  {
    ProcessorMetrics(
      totalProcessed,
      totalAttempts,
      errorCount,
      if totalProcessed > 0
      then ((totalProcessed - errorCount) as real / totalProcessed as real) * 100.0
      else 0.0)
  }

  /** `getMetrics()` over a state. */
  function Metrics(s: State): ProcessorMetrics
  {
    MetricsOf(s.totalProcessed, s.totalAttempts, |s.errors|)
  }
}
