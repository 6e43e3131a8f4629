# RecordProcessor in Dafny

This project models the record-reprocessing engine of a DynamoDB document
processing service. `RecordProcessor` asks a store for the records that are
not yet processed. It runs a caller-supplied work function on each record,
in chunks of `maxWorkers`, and every call to the work function, the store's
query and the store's mark goes through a retry wrapper. That wrapper uses
exponential backoff with jitter and a classifier for non-retryable
messages. Failures are collected as `{AccountId, RunTime, error}` entries.
The records that failed in one round are the next round's candidates, and
`maxIterations` bounds the number of rounds. The project also models the
standalone helper `exponentialBackoff`, which has no classifier and no
jitter.

Files and modules:

- `js_runtime.dfy` (`JsRuntime`): thrown values, settled promises, absent keys, `**`, and how an integer is written into a template string.
- `records.dfy` (`Records`): records, errors, metrics, the configuration and its merge over the defaults, and the store as an oracle.
- `classifier.dfy` (`Classifier`): `isRetryableError` and `extractErrorMessage`.
- `chunking.dfy` (`Chunking`): what `chunkRecords` computes, and its partition properties.
- `retry.dfy` (`Retry`): `exponentialBackoff` as a loop. It is proved equal to a reference definition written without a loop.
- `processor_spec.dfy` (`ProcessorSpec`): the reference behaviour of every processor operation. Each is a function from the state before the operation to its outcome and the state after it.
- `record_processor.dfy` (`Processor`): the class `RecordProcessor`.
  - Its fields are `errors`, `totalProcessed`, `totalAttempts` and the collaborators' call counters.
  - Its ghost logs record the sleeps and the `debug` and `warn` lines.
  - Each method mirrors the TypeScript method: the same loops, the same field updates. The one exception is `SettleAll`, a sequential stand-in for the concurrent `chunk.map(...)` under `Promise.allSettled` (see "## Left out").
  - Each method is proved to return what `ProcessorSpec` prescribes and to leave the state it prescribes.
- `processor_lemmas.dfy` (`ProcessorLemmas`): what the reference behaviour promises, from the retry wrapper up to whole runs of `processAll`.

The collaborators are oracles indexed by how many times each has been
called: the n-th `queryUnprocessed()`, the n-th
`markAsProcessed(accountId, runTime)`, the n-th call of the work function on
a record, and the n-th `Math.random()`. The retry wrapper asks
`this.isRetryableError`, which is a public method. The reference behaviour
takes that method as a parameter, and a `RecordProcessor` supplies
`Classifier.IsRetryableError`.

Four behaviours of the code are easy to misread, and the model follows the code:

- `totalAttempts` counts failed calls only: it is incremented in the `catch`
  block of `exponentialBackoffWithJitter` (src/services/RecordProcessor.ts:183-184),
  never after a success (`RecoversAfterRetryableFailures`: k failures then a
  success add k).
- After a batch with no failures, the store is queried again: an empty
  `recordsToRetry` sends the next round to `fetchUnprocessedRecords`
  (src/services/RecordProcessor.ts:46-50). `CleanRun` shows the second query.
- `successRate` can be negative: it is `(totalProcessed - errors.length) / totalProcessed * 100`
  (src/services/RecordProcessor.ts:133-136), and a record can leave one error
  per round (`NegativeSuccessRate`).
- The max-iterations warning does not need anything to be outstanding: the
  cap is tested at the top of the loop, before candidates are fetched
  (src/services/RecordProcessor.ts:41-44; `WarnsWithNothingOutstanding`).
  With `maxIterations <= 0` the warning comes at once (`ProcessAllShape`).

The code also does the following, and the model follows it:

- A failed fetch rejects `processAll`, in any round.
- A record whose work succeeded but whose mark failed is both counted as
  processed and recorded as an error.
- With a negative retry budget, the task is never called and `undefined` is
  thrown.

## Model

| member | source | states |
|---|---|---|
| Records.MergeConfig | src/services/RecordProcessor.ts:25 | every key the caller gives wins; every absent key takes its default (5 workers, 3 retries, base 100 ms, multiplier 2, 10 iterations); no overrides give exactly the defaults |
| Processor.RecordProcessor.constructor | src/services/RecordProcessor.ts:19-31 | the config is the merge over the defaults; `maxIterations` is read on its own, with 10 as its default; errors, counters and logs start empty, so `getMetrics()` is all zeros and `getErrors()` is empty |
| Processor.RecordProcessor.CallTask | src/services/RecordProcessor.ts:182-183 | one `await task()` for the query, the mark or the work closure; the work closure increments `totalProcessed` only when the work succeeds; exactly one call counter moves |
| Processor.RecordProcessor.ExponentialBackoffWithJitter | src/services/RecordProcessor.ts:173-202 | the attempt loop returns and leaves exactly what the reference retry wrapper `ProcessorSpec.Retry` gives from attempt 0 with an undefined last error |
| Processor.RecordProcessor.FetchUnprocessedRecords | src/services/RecordProcessor.ts:60-67 | the store's query under the retry wrapper with the configured budget, base and multiplier |
| Processor.RecordProcessor.MarkAsProcessed | src/services/RecordProcessor.ts:107-114 | the store's mark for the record's keys under the retry wrapper, with its value dropped |
| Processor.RecordProcessor.ProcessRecord | src/services/RecordProcessor.ts:94-105 | the work under the retry wrapper; a rejection is passed on without marking; otherwise the mark, under its own wrapper, decides the outcome |
| Processor.RecordProcessor.SettleAll | src/services/RecordProcessor.ts:74-76 | one settled result per record of the chunk, in input order, each record processed after the previous one settled |
| Processor.RecordProcessor.ChunkRecords | src/services/RecordProcessor.ts:116-122 | the slicing loop yields exactly `Chunking.Chunks(records, chunkSize)` |
| Processor.RecordProcessor.RecordRejections | src/services/RecordProcessor.ts:78-88 | the `forEach` appends to the errors, and to the failed records, exactly what `ProcessorSpec.Settle` gives for the chunk; nothing else changes |
| Processor.RecordProcessor.ProcessBatch | src/services/RecordProcessor.ts:69-92 | returns the failed records and leaves the state of the reference `ProcessorSpec.Batch` |
| Processor.RecordProcessor.ProcessAll | src/services/RecordProcessor.ts:33-58 | resets the errors and counters, then runs the reference loop `ProcessorSpec.Loop` from iteration 0; the outcome and the final state are the loop's; a fulfilled outcome is the processor's own `errors` list, the one `getErrors()` returns, not a copy |
| Processor.RecordProcessor.GetErrors | src/services/RecordProcessor.ts:124-126 | the processor's error list itself, whose length is the error count `getMetrics()` reports |
| Processor.RecordProcessor.GetMetrics | src/services/RecordProcessor.ts:128-138 | the metrics are `ProcessorSpec.Metrics` of the current state, whose error count is the length of `getErrors()`; the function reads the state and changes nothing |
| JsRuntime.NatStringValue | src/services/RecordProcessor.ts:42 | the rendering of the count in the warning is a non-empty string of decimal digits, without a leading zero unless the count is 0, whose decimal value is the count |
| Classifier.ExtractedMessages | src/services/RecordProcessor.ts:166-171 | an `Error` gives its `message`; a thrown string gives itself; `null` and `undefined` give "null" and "undefined"; any other value gives its `String(...)` rendering |
| Classifier.ContainsIff | src/services/RecordProcessor.ts:159 | `message.includes(pattern)`, as `Classifier.Contains` computes it, holds iff the pattern occurs at some offset of the message |
| Classifier.SomeIncluded | src/services/RecordProcessor.ts:159 | `some(pattern => message.includes(pattern))` is true iff some pattern occurs in the message |
| Classifier.IsRetryableError | src/services/RecordProcessor.ts:140-160 | true iff the value is an `Error` and no pattern occurs in its lower-cased message |
| Classifier.RetryableReadsExtractedMessage | src/services/RecordProcessor.ts:141-145 | only an `Error` is retryable; its classification is that of the message `extractErrorMessage` gives; letter case does not matter |
| Classifier.PatternMakesNonRetryable | src/services/RecordProcessor.ts:147-159 | a message that contains any of the nine patterns, in any letter case, is not retryable |
| Classifier.RetryableWithoutD | src/services/RecordProcessor.ts:147-159 | every pattern contains a `d`, so an `Error` whose message has no `d` or `D` is retryable |
| Classifier.NonErrorsNotRetryable | src/services/test/RecordProcessor.test.ts:170-174 | a thrown string, `null` and `undefined` are not retryable |
| Classifier.ValidationNotRetryable | src/services/test/RecordProcessor.test.ts:176-178 | `Error("validation failed")` is not retryable |
| Classifier.UnauthorizedNotRetryable | src/services/test/RecordProcessor.test.ts:180-182 | `Error("unauthorized access")` is not retryable |
| Classifier.TransientMessagesRetryable | src/services/test/RecordProcessor.test.ts:184-187 | `Error("connection timeout")` and `Error("service unavailable")` are retryable |
| Chunking.ChunksPartition | src/services/RecordProcessor.ts:116-122 | the chunks concatenate back to the input; each is non-empty and at most `chunkSize` long; all but the last have exactly `chunkSize`; there are ceil(n / chunkSize) of them |
| Chunking.SevenInThrees | src/services/RecordProcessor.ts:118-119 | seven records in chunks of three give chunks of sizes 3, 3 and 1 |
| Retry.FirstFulfilled | src/utils/retry.ts:13-15 | the index of the first fulfilled call below the limit, with every earlier call rejected, or the limit when none is fulfilled |
| Retry.ExponentialBackoff | src/utils/retry.ts:5-29 | the loop's outcome, call count and sleeps are those of the loop-free reference `Retry.Expected` |
| Retry.FailThenSucceed | src/utils/retry.ts:13-24 | k failures (k at most `maxRetries`) and then a success: k + 1 calls, sleeps `base * mult^a` for a = 0 .. k - 1, and the success value unchanged |
| Retry.AlwaysFailing | src/utils/retry.ts:17-21 | with no classifier, every failure is retried; when all fail, the last failure is thrown after exactly `maxRetries` sleeps |
| Retry.CallsBounded | src/utils/retry.ts:11-28 | between 1 and `maxRetries + 1` calls and one sleep fewer when the budget is not negative; no call and `undefined` thrown when it is; a success is the last call's value; sleep a is `base * mult^a` |
| ProcessorSpec.RunChunk | src/services/RecordProcessor.ts:74-76 | one settled result per record of the chunk |
| ProcessorLemmas.CallSettles | src/services/RecordProcessor.ts:182-183 | one `await task()` settles as the collaborator's answer to that call number and moves only that collaborator's counter; only a work success counts a processed record |
| ProcessorLemmas.RetryCounts | src/services/RecordProcessor.ts:181-193 | with a non-negative budget, the wrapper calls the task between 1 and `maxRetries + 1` times; `totalAttempts` and the debug log grow by the number of failed calls; a success does not count; a work success counts one processed record; errors, warnings and the other call counters do not change |
| ProcessorLemmas.RetryOutcome | src/services/RecordProcessor.ts:181-193 | every call but the last failed retryably; the wrapper settles as its last call did; a rejection means a non-retryable failure or an exhausted budget; with no call it throws the undefined last error |
| ProcessorLemmas.RetrySleeps | src/services/RecordProcessor.ts:195-197 | one `Math.random()` and one sleep per retried failure, each sleep being the jittered exponential delay of its attempt |
| ProcessorLemmas.JitterBounds | src/services/RecordProcessor.ts:195-196 | a jittered delay lies in `[base * mult^a, base * mult^a + base / 10)` |
| ProcessorLemmas.JitterSleepBounds | src/services/RecordProcessor.ts:195-197 | each sleep the wrapper takes lies in `[base * mult^a, base * mult^a + base / 10)` for its attempt a |
| ProcessorLemmas.NonRetryableFailsFast | src/services/RecordProcessor.ts:191-193 | a first failure the classifier rejects is thrown after that one call, with no sleep and one counted attempt |
| ProcessorLemmas.RecoversAfterRetryableFailures | src/services/RecordProcessor.ts:181-197 | k retryable failures (k at most `maxRetries`) and then a success: k + 1 calls, k counted attempts, k sleeps, and the success returned |
| ProcessorLemmas.WorkAttempts | src/services/RecordProcessor.ts:95-103 | the work succeeds only on its last call, after failures on all earlier ones; it counts the record once then; it calls at most `maxRetries + 1` times and never marks |
| ProcessorLemmas.MarkAttempts | src/services/RecordProcessor.ts:107-114 | the mark is called at least once when the budget allows; it is rejected only when its last call was; every failed call counts one attempt |
| ProcessorLemmas.ProcessRecordCounts | src/services/RecordProcessor.ts:94-105 | the record is counted as processed iff its work succeeded, iff the mark was attempted; a fulfilled record was processed; a rejected but processed record failed at the mark; attempts are the failed work and mark calls |
| ProcessorLemmas.ProcessRecordDetermined | src/services/RecordProcessor.ts:94-105 | a record whose work and mark always succeed is fulfilled at once, with no failed attempt; one whose work always fails is rejected, never counted and never marked |
| ProcessorLemmas.RunChunkCounts | src/services/RecordProcessor.ts:74-76 | settling a chunk leaves the errors, warnings and query alone; it counts at least one processed record per fulfilled result and at most one per record |
| ProcessorLemmas.SettleByIndices | src/services/RecordProcessor.ts:78-88 | the errors and the failed records are the rejected ones, in increasing index order, each once, with its own keys and the message of its own rejection; fulfilled records leave nothing |
| ProcessorLemmas.SettleAppend | src/services/RecordProcessor.ts:73-88 | settling two runs of results one after the other appends what each settles |
| ProcessorLemmas.BatchChunksSettle | src/services/RecordProcessor.ts:73-89 | chunk after chunk, the errors appended and the records returned are those of settling all the records, concatenated, against all the results |
| ProcessorLemmas.BatchChunksCounts | src/services/RecordProcessor.ts:73-89 | chunk after chunk, no warning and no query; processed records are bounded by the fulfilled results and by the records |
| ProcessorLemmas.BatchSettles | src/services/RecordProcessor.ts:69-92 | one result per record; the errors appended and the records returned are exactly the settlement of the rejected records, in input order |
| ProcessorLemmas.RunChunkDetermined | src/services/RecordProcessor.ts:74-76 | when each record always succeeds or always fails, each result is fulfilled iff its record always succeeds, and the fulfilled ones are counted |
| ProcessorLemmas.BatchChunksDetermined | src/services/RecordProcessor.ts:73-89 | the same over all chunks |
| ProcessorLemmas.BatchDetermined | src/services/RecordProcessor.ts:69-92 | the same for `processBatch` |
| ProcessorLemmas.SettleFollowing | src/services/RecordProcessor.ts:78-88 | when the results follow their records, exactly the failing records are handed back, each with one error carrying its keys |
| ProcessorLemmas.BatchFailing | src/services/RecordProcessor.ts:69-92 | a batch of records that always succeed or always fail hands back the failing ones, appends one error per failing record with its keys, and counts the others as processed |
| ProcessorLemmas.LoopIterations | src/services/RecordProcessor.ts:40-55 | at most `maxIterations` batches run; the cap stops the loop iff that many have run |
| ProcessorLemmas.LoopOutcome | src/services/RecordProcessor.ts:46-57 | the loop rejects iff a fetch fails; otherwise it returns the error list it leaves |
| ProcessorLemmas.LoopLogs | src/services/RecordProcessor.ts:41-44 | one warning iff the cap stops the loop; the error list only grows |
| ProcessorLemmas.ProcessAllShape | src/services/RecordProcessor.ts:33-58 | the loop-level facts from a reset state; with a cap of 0 or less, no query, no batch, an empty list and the warning |
| ProcessorLemmas.FailingBatch | src/services/RecordProcessor.ts:69-92 | a batch of one always-failing record hands that record back, appends exactly one error with its keys, and neither counts it as processed nor queries the store |
| ProcessorLemmas.FailingRecordLoop | src/services/RecordProcessor.ts:46-54 | a record that always fails is handed back every round, so the store is not queried again, nothing is counted as processed, and the cap ends the run |
| ProcessorLemmas.FailingRecordErrors | src/services/RecordProcessor.ts:78-88 | over those rounds, each round appends one error carrying the record's keys, and no earlier error is removed |
| ProcessorLemmas.AlwaysFailingRecord | src/services/test/RecordProcessor.test.ts:127-142 | a store that offers one always-failing record gives `maxIterations` errors with its keys, no duplicate suppression, nothing processed, one query and the warning |
| ProcessorLemmas.EmptyStore | src/services/test/RecordProcessor.test.ts:78-84 | a store that offers nothing gives one query, no batch, no warning and an empty list |
| ProcessorLemmas.CleanRun | src/services/test/RecordProcessor.test.ts:86-99 | records that all succeed are processed in one batch with no error and no failed attempt; the store is queried again; the rate is 100 |
| ProcessorLemmas.WarnsWithNothingOutstanding | src/services/RecordProcessor.ts:41-44 | with one round allowed, a batch where every record succeeds still ends with the warning |
| ProcessorLemmas.NegativeSuccessRate | src/services/RecordProcessor.ts:133-136 | one succeeding and one always-failing record, with two rounds or more, give one processed record, `maxIterations` errors and a negative rate |
| ProcessorLemmas.SuccessRateRange | src/services/RecordProcessor.ts:133-136 | the rate is 0 until something is processed, at most 100, exactly 100 iff something was processed and no error recorded, and negative iff there are more errors than processed records |

## Left out

- The DynamoDB store (`src/models/Record.ts`, `src/services/dynamodb.ts`) is not part of this model. The store is an oracle for the outcomes of `queryUnprocessed` and `markAsProcessed`, and the default repository the constructor creates is not modelled.
- The logger is reduced to ghost logs of the `debug` and `warn` lines. Pino and console output are left out.
- `src/utils/config.ts`, the demos and the scripts are not part of this model. They read the environment, the terminal or the SDK.
- `setTimeout` is left out: each sleep only records the delay it asked for.
- `Math.random` is an oracle. Its values are assumed to lie in [0, 1) only where the delay bounds are stated.
- `Promise.allSettled` over `chunk.map(...)` is modelled by `SettleAll`, which settles a chunk's records one after the other, in input order: each record's retries all happen before the next record's first call. In the code every record of the chunk makes its first call before any retry. The collaborators are oracles indexed by the global call count, so when their answers depend on that order the settled results can differ too, not only the order of the counters and logs. For example, with a chunk `[r0, r1]`, one retry and a work function whose calls 0 and 2 reject with a retryable error, the code rejects `r0` (calls 0 and 2) while the model fulfils it (calls 0 and 1).
- Numbers are exact: delays and rates are `real`, and counts are `int`. JavaScript floating point and rounding are not modelled. Neither are non-integer `maxRetries`, `maxIterations` or `maxWorkers`; with a non-integer `maxWorkers`, `slice` truncates its bounds and the chunks come out uneven.
- `processAll` and `getErrors` return the live `errors` array (src/services/RecordProcessor.ts:57, :125). A caller that pushes into it changes the processor's state, and a `getErrors()` made while a run is in progress sees the array grow. The model returns the list as a value, so this aliasing is not captured.
- `toLowerCase` is modelled for ASCII letters only.
- A config key given explicitly as `undefined` would override its default in the spread. The model treats it as absent.
- Processor.RecordProcessor.ChunkRecords: requires `chunkSize > 0`. With 0 the source loops forever.
- Processor.RecordProcessor.ProcessBatch: requires `maxWorkers > 0`, because its chunking loops forever otherwise.
- Processor.RecordProcessor.ProcessAll: requires `maxWorkers > 0` for every run. The code only loops forever once a batch with records runs; when the first query is empty, when `maxIterations <= 0` or when the first fetch fails, `processAll` returns normally whatever `maxWorkers` is, and the model does not cover those runs.
- ProcessorLemmas.AlwaysFailingRecord: states the keys of each error but not its message.
- ProcessorLemmas.CleanRun: states the processed count and the number of queries but not the number of work and mark calls.
