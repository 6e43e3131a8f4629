/** The values the processor exchanges with its callers and its store: records,
    processing errors, metrics and the configuration it is built with. */
module Records {
  import opened JsRuntime

  /** A stored record, keyed by (AccountId, RunTime); the processor reads only the keys. */
  datatype RecordData = RecordData(accountId: string, runTime: string, processed: bool, documentId: string)

  /** One failure event: the record's keys and the message of what it was rejected with. */
  datatype ProcessError = ProcessError(accountId: string, runTime: string, error: string)

  datatype ProcessorMetrics = ProcessorMetrics(
    totalProcessed: int,
    totalAttempts: int,
    unprocessedErrors: int,
    successRate: real)

  datatype ProcessorConfig = ProcessorConfig(
    maxWorkers: int,
    maxRetries: int,
    backoffBaseMs: real,
    backoffMultiplier: real,
    maxIterations: int)

  /** A `Partial<ProcessorConfig>`: every key may be absent. */
  datatype PartialConfig = PartialConfig(
    maxWorkers: Option<int>,
    maxRetries: Option<int>,
    backoffBaseMs: Option<real>,
    backoffMultiplier: Option<real>,
    maxIterations: Option<int>)

  const NoOverrides := PartialConfig(None, None, None, None, None)

  /** The defaults the processor starts from. */
  function DefaultConfig(): ProcessorConfig
  {
    ProcessorConfig(5, 3, 100.0, 2.0, 10)
  }

  function Or<T>(o: Option<T>, default: T): T
  {
    match o
    case Some(v) => v
    case None => default
  }

  /** `{ ...getDefaultConfig(), ...partial }`: every key the caller gives wins,
      every other key keeps its default. */
  function MergeConfig(partial: PartialConfig): (c: ProcessorConfig)
    ensures partial == NoOverrides ==> c == DefaultConfig()
    ensures partial.maxWorkers.Some? ==> c.maxWorkers == partial.maxWorkers.value
    ensures partial.maxWorkers.None? ==> c.maxWorkers == 5
    ensures partial.maxRetries.Some? ==> c.maxRetries == partial.maxRetries.value
    ensures partial.maxRetries.None? ==> c.maxRetries == 3
    ensures partial.backoffBaseMs.Some? ==> c.backoffBaseMs == partial.backoffBaseMs.value
    ensures partial.backoffBaseMs.None? ==> c.backoffBaseMs == 100.0
    ensures partial.backoffMultiplier.Some? ==> c.backoffMultiplier == partial.backoffMultiplier.value
    ensures partial.backoffMultiplier.None? ==> c.backoffMultiplier == 2.0
    ensures partial.maxIterations.Some? ==> c.maxIterations == partial.maxIterations.value
    ensures partial.maxIterations.None? ==> c.maxIterations == 10
  {
    var d := DefaultConfig();
    ProcessorConfig(
      Or(partial.maxWorkers, d.maxWorkers),
      Or(partial.maxRetries, d.maxRetries),
      Or(partial.backoffBaseMs, d.backoffBaseMs),
      Or(partial.backoffMultiplier, d.backoffMultiplier),
      Or(partial.maxIterations, d.maxIterations))
  }

  /** The store, as an oracle: the n-th call (0-based, over the processor's
      lifetime) of each operation settles as the function says. */
  datatype Repository = Repository(
    queryUnprocessed: nat -> Settled<seq<RecordData>>,
    markAsProcessed: (string, string, nat) -> Settled<()>)
}
