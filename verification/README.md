# llm-price-tracker in Dafny

A model of the core of `llm-price-tracker`, a TypeScript SDK that wraps calls to
LLM providers (OpenAI, Azure OpenAI, Claude, Gemini, AWS Bedrock). For each call
it records a tracking record: tokens, cost, latency, and success or error. It
writes these records to a database adapter, one at a time or in batches.

The model covers:

- **Retry executor** (`retry.dfy`, module `Retry`).
  - `withRetry` is a pure function over the sequence of outcomes of the wrapped operation. It returns how the run ended, how many attempts it used, and the sleeps it took.
  - `isRetryableError` is a case-insensitive search for transient-failure markers.
  - The sleep schedule is the capped geometric delay sequence.
  - The loop as written (`RunWithRetry`) is proved equal to a recursive reference definition.
- **Pricing** (`pricing.ts`, modelled in `pricing.dfy`, module `Pricing`).
  - `calculateCost` works over `real`.
  - The import filter takes the already parsed LiteLLM price document.
  - The 24-hour cache is an explicit state. The clock is read twice per fetch, at the freshness test and after the document is read, and both readings are parameters. The fetch is an oracle.
  - The overlay of caller-supplied prices made at `connect`.
- **Tracking records** (`records.dfy`, module `Records`). Each kind of call turns a provider's usage, or its error, into a `TrackingData` record and the `usageInfo` shown to the caller. For streams, the model folds the usage carried by the chunks or events.
- **Client life cycle** (`client.dfy`, module `Client`). `connect`, `track`, `flushBatch`, the batch interval firing and `disconnect` are transitions of an explicit client state; `getStats` is a query that leaves it unchanged. Backend writes succeed or fail by oracle. The main invariant: over any run of events, the records written followed by the queue are exactly the records accepted, in tracking order.
- **Postgres statements** (`postgres.dfy`, module `Postgres`).
  - The row tuple of a record, with a read-back that proves no field is lost.
  - The multi-row `INSERT` of `saveBatch`. Its text references `$1..$12n`, each once and in order, and record `i`'s values sit at positions `12i..12i+11`.
  - The single-row `INSERT` of `save`.
  - The `WHERE` clause and parameter list of `getStats`. Its `k`-th condition binds `$k`, and a record satisfies all the conditions exactly when it matches the filter.
- **Support modules.** `types.dfy` holds the shared data types. `text.dfy` holds the string machinery: ASCII lower-casing, `includes`, decimal rendering, `join`, and a scanner for `$k` references. `wrappers.dfy` holds `Option`.

Time, randomness and I/O are all parameters:

- the request id and clock readings of a call are a `CallContext`;
- the fetch of the price document is a `FetchOutcome`;
- the attempts of a provider call are a sequence of `Attempt` values;
- the success of each database write is a boolean carried by the event.

Not every success record has `totalTokens = promptTokens + completionTokens`. The non-streaming OpenAI, Azure and Gemini calls record the provider's own total, or 0 when it is missing (`src/client.ts:285`, `src/client.ts:393`). `Records.ProviderTotalIsReported` and `Records.GeminiMissingTotalIsZero` state this.

## Model

| member | source | states |
|---|---|---|
| Types.ProviderNameRoundTrip | src/types.ts:6 | The five provider names are distinct: a stored name reads back as the provider that wrote it. |
| Types.ParseProvider | src/types.ts:6 | A stored name parses only to the provider that writes it, and a name none of the five providers writes parses to nothing. |
| Retry.ResolvePolicy | src/client.ts:214 | The policy is the call's own, else the configured one, else the default `{3, 1000, 10000, 2}`. |
| Retry.IsRetryableError | src/client.ts:237-248 | The classifier itself. It has no contract of its own; `Retry.RetryableIffMarker` characterises it as "some marker occurs in the lower-cased message". |
| Retry.RetryableIffMarker | src/client.ts:237-248 | A message is retryable exactly when one of the seven markers occurs in its lower-cased text. |
| Retry.RetryableIgnoresCase | src/client.ts:238 | Lower-casing a message first does not change its classification. |
| Retry.NotRetryableWithoutMarkerChars | src/client.ts:239-247 | A message lacking each of `t`, `5`, `4`, `c` (in any case) is never retried. |
| Retry.UpperCaseTimeoutRetryable | src/client.ts:238-241 | `TIMEOUT` anywhere in a message, in upper case, makes it retryable. |
| Retry.NextDelay | src/client.ts:230 | The next delay is the smaller of the grown delay and `maxDelayMs`: it exceeds neither, and equals one of them. |
| Retry.Delay | src/client.ts:216-230 | The sleep after attempt `k` is never negative when the initial delay, the multiplier and the cap are not. `Retry.DelayClosedForm` and `Retry.DelayCapped` give its value. |
| Retry.DelayClosedForm | src/client.ts:216-230 | With a multiplier of at least 1, the sleep after attempt `k >= 1` is `min(initial * m^k, max)`. |
| Retry.DelayCapped | src/client.ts:230 | No sleep after the first exceeds `maxDelayMs`; the first is `initialDelayMs`, uncapped. |
| Retry.DefaultSchedule | src/client.ts:42-47 | Under the default policy the sleeps are 1000, 2000, 4000, 8000, 10000, 10000. |
| Retry.Attempts | src/client.ts:218-232 | From any attempt number, the loop's run satisfies the run description: retryable failures each followed by their sleep, then a success or a final failure. |
| Retry.RetryStep | src/client.ts:224-230 | A retryable failure with budget left is followed by its sleep and the run from the next attempt. |
| Retry.WithRetry | src/client.ts:213-235 | The run satisfies the description; with a negative budget no attempt is made and `null` is thrown. |
| Retry.RunUnique | src/client.ts:213-235 | The run description admits exactly one run for given outcomes. |
| Retry.RunWithRetry | src/client.ts:213-235 | The `for` loop as written produces the run the description admits. |
| Retry.ReturnsFirstSuccess | src/client.ts:218-220 | After `k` retryable failures, a success at attempt `k` is returned after `k + 1` attempts and the first `k` sleeps. |
| Retry.ExhaustsBudget | src/client.ts:218-234 | Always-retryable failures use `maxRetries + 1` attempts and `maxRetries` sleeps, then throw the last error. |
| Retry.StopsOnFatalError | src/client.ts:224-227 | A non-retryable error ends the run at that attempt, even with budget left, and is the error thrown. |
| Retry.SleepsBetweenAttempts | src/client.ts:224-229 | A run sleeps once between consecutive attempts and never after the last. |
| Pricing.CalculateCost | src/pricing.ts:53-66 | The cost is absent exactly when the model has no price. |
| Pricing.ZeroTokensCostZero | src/pricing.ts:62-65 | A known model used for no tokens costs 0, not "unpriced". |
| Pricing.CostAdditive | src/pricing.ts:62-65 | Cost is additive in the token counts. |
| Pricing.CostMonotone | src/pricing.ts:62-65 | With non-negative prices, more tokens never cost less. |
| Pricing.CostExample | src/pricing.ts:53-66 | 1000 prompt and 500 completion tokens at 0.0000025 and 0.00001 cost 0.0075; an unknown model costs nothing. |
| Pricing.Imported | src/pricing.ts:32-41 | The import fails exactly when some entry other than `sample_spec` is `null`. Otherwise the table's keys are exactly the chat models with both costs, each priced at its own costs. |
| Pricing.ImportPricing | src/pricing.ts:29-41 | The imported table holds exactly the chat models other than `sample_spec` with both costs present, copied as they are; a `null` entry aborts the import. |
| Pricing.FetchPricing | src/pricing.ts:18-51 | A fresh cached table is returned without a request. Otherwise a request is made, and only a successful import replaces the cache, stamped with the clock reading taken after the response was read. A cached table is never lost. |
| Pricing.RefetchAtExactlyTtl | src/pricing.ts:16-21 | The freshness test is strict: a table exactly 24 hours old is refetched, and one a millisecond younger is not. |
| Pricing.RefetchReplaces | src/pricing.ts:43-46 | A successful refetch replaces the cache wholesale with the new table. The stamp is the clock reading taken after the response was read, not the one the freshness test used. |
| Pricing.FailedFetchFallsBack | src/pricing.ts:25-50 | A failed fetch returns the cached table, stale or not, or an empty one, and leaves the cache as it was. |
| Pricing.SecondCallUsesCache | src/pricing.ts:19-21 | A second call within the time to live returns the same table without a request. |
| Pricing.MergePricing | src/client.ts:94 | The merged table has the keys of both; the caller's price wins where both have one. |
| Pricing.OverrideDecidesCost | src/client.ts:94 | A model the caller priced is charged at the caller's price; any other model at the fetched price or not at all. |
| Records.SuccessRecord | src/client.ts:277-291 | A success record carries the call's identity and its usage, no error, and the cost of its own tokens. |
| Records.FailureRecord | src/client.ts:303-314 | A failure record carries the error message, zero tokens and no cost, whatever the prices. |
| Records.ErrorText | src/client.ts:313 | The recorded message is the thrown error's message, or `"null"` when the executor threw `null`. |
| Records.Finish | src/client.ts:270-316 | A returned answer gives a success record and the matching `usageInfo`; a thrown error gives the failure record and is rethrown unchanged. |
| Records.ExecuteOpenAILike | src/client.ts:262-317 | The record succeeds exactly when the retry run returns. Its counts are the returned answer's `usage` counts, each 0 when missing, with the provider's total. It is consistent with the prices. On failure the run's error is rethrown and recorded. |
| Records.OpenAITokens | src/client.ts:272-286 | Each count is the reported one or 0 when missing, the total included; no usage gives zeros. |
| Records.OpenAIRecordsFirstAnswer | src/client.ts:271-291 | After retryable failures, the first answer is the one recorded, with its own counts. |
| Records.OpenAIRecordsFatalError | src/client.ts:302-316 | A non-retryable error after retryable failures ends the call at that attempt: it is recorded in the failure record and rethrown. |
| Records.OpenAIRecordsLastError | src/client.ts:302-315 | When every attempt fails retryably, the record carries the last error. |
| Records.NegativeBudgetRecordsNull | src/client.ts:215-234 | With a negative budget no attempt is made; the record's error is `"null"` and `null` is rethrown. |
| Records.ProviderTotalIsReported | src/client.ts:285 | The OpenAI total is the reported one, not prompt plus completion, and 0 when missing. |
| Records.ClaudeTokens | src/client.ts:325-338 | Claude's total is prompt plus completion. |
| Records.ExecuteClaude | src/client.ts:319-370 | The record succeeds exactly when the retry run returns. Its counts are the answer's `input_tokens` and `output_tokens`, and the total is their sum. On failure the run's error is rethrown and recorded. |
| Records.ClaudeRecordsFirstAnswer | src/client.ts:323-338 | After retryable failures, the first Claude answer is recorded with its `input_tokens`, its `output_tokens` and their sum. |
| Records.ExecuteGemini | src/client.ts:372-425 | The record succeeds exactly when the retry run returns. Its counts and total are those of the answer's `usageMetadata`, each 0 when missing. On failure the run's error is rethrown and recorded. |
| Records.GeminiTokens | src/client.ts:380-394 | Each count is read from `usageMetadata` or is 0 when missing, the total included; no metadata gives zeros. |
| Records.GeminiRecordsFirstAnswer | src/client.ts:378-393 | After retryable failures, the first Gemini answer is recorded with its metadata's prompt, candidates and total counts, each 0 when missing, and zeros without metadata. |
| Records.GeminiMissingTotalIsZero | src/client.ts:393 | A Gemini answer without a total is recorded with total 0, whatever its other counts, at whichever attempt it arrives. |
| Records.BedrockTokens | src/client.ts:454-467 | Bedrock's counts are the reported `inputTokens` and `outputTokens`, each 0 when missing, and all three are 0 without `usage`. The total is their sum. |
| Records.ExecuteBedrock | src/client.ts:427-503 | One attempt. An error is recorded and rethrown as it is. A success records the counts of the answer's `usage`, and returns the first text or `""`, the stop reason or `end_turn`, and the usage recorded. |
| Records.BedrockRecordsReportedCounts | src/client.ts:454-467 | An answer reporting both counts is recorded and returned with exactly those counts and their sum. |
| Records.BedrockNotRetried | src/client.ts:446-447 | Even an error the retry executor would retry fails a Bedrock call at once. |
| Records.LastPresent | src/client.ts:520-524 | The value kept is the last present one, and absent only when none is present. |
| Records.FoldOpenAIStream | src/client.ts:520-526 | The loop keeps the counts of the last chunk carrying usage, or zeros when none does. |
| Records.StreamOpenAILike | src/client.ts:505-613 | Every chunk is handed on. A completed stream records the last usage with total prompt plus completion. A failed one records zeros and the error, and rethrows it. |
| Records.FoldClaudeStream | src/client.ts:626-634 | The prompt count is that of the last start event, and the completion count that of the last delta, each 0 when absent. |
| Records.StreamClaude | src/client.ts:615-666 | Every event is handed on. A completed stream records the folded counts. A failed one records zeros and the error, and rethrows it. |
| Records.ClaudeDeltaSetsCompletion | src/client.ts:630-632 | A delta carrying usage sets the completion count and leaves the prompt count alone. |
| Records.LastPresentAppend | src/client.ts:520-524 | The last usage of two stretches of chunks is the second's, unless it has none. |
| Records.ClaudeStreamOrder | src/client.ts:626-632 | In any stream, swapping two neighbouring events that are not both start events and not both delta events leaves the record unchanged. So a delta before the start still counts. |
| Client.NewSdk | src/client.ts:38-41 | A new client is disconnected, with an empty queue, no writes and no interval. |
| Client.Flush | src/client.ts:197-211 | An empty queue makes no write. Otherwise the whole queue, in order, is one write, with `saveBatch` when the adapter has it and per-record `save` otherwise. Without a database nothing is written. The queue is empty even when the write fails. Only the queue and the log change. |
| Client.BatchKind | src/client.ts:203-206 | A batch is written with `saveBatch` exactly when the adapter has one, and never as a single save. |
| Client.Track | src/client.ts:170-185 | A no-op unless connected with a database. With batching, the record joins the tail of the queue and nothing is written, unless the queue reaches `batchSize`. Then the queue with the record is one batch write and the queue empties. Without batching, the record is one single write. |
| Client.Tick | src/client.ts:187-195 | A firing of a live interval empties the queue. With a database it appends the queue, in order, to the written records as one batch write. With no live interval nothing changes. |
| Client.Disconnect | src/client.ts:102-112 | Clears the held interval and empties the queue. A non-empty queue with a database becomes one final batch write; otherwise nothing is written. The client ends disconnected unless the database's disconnect throws. |
| Client.Connect | src/client.ts:86-100 | A failing database leaves the client unchanged. Otherwise the client is connected with the merged prices, and an interval is started when database, batch size and interval are all set. |
| Client.ConnectFetching | src/client.ts:86-94 | The cache ends as the fetch left it, even when the database fails. A failing database leaves the client unchanged. Otherwise the client is connected, its prices are the fetched table overlaid with the caller's, and its queue and log are unchanged. |
| Client.FailedFirstFetchKeepsCustomPrices | src/client.ts:86-94 | When the first fetch fails, the client's prices are exactly the caller's. |
| Client.GetStats | src/client.ts:114-120 | Statistics come from the adapter exactly when it has `getStats`, connected or not. |
| Client.NewSdkValid | src/client.ts:38-41 | A new client satisfies the queue invariant. |
| Client.StepPreserves | src/client.ts:170-211 | Every transition keeps the configuration and the queue invariant. It appends to the written records and the queue exactly the record it accepts. |
| Client.TrackPreserves | src/client.ts:170-185 | `track` keeps the queue invariant and accounts for the record it accepts. |
| Client.FlushPreserves | src/client.ts:197-211 | A flush moves the whole queue, in order, to the end of the write log. |
| Client.RunPreserves | src/client.ts:170-211 | Over any run of events, written records followed by the queue grow by exactly the accepted records, in order. |
| Client.TrackedRecordsAccountedFor | src/client.ts:170-211 | From a new client, the records of all attempted writes followed by the queue are exactly the accepted records, in order. No record is attempted twice. A record whose write failed is in a write marked failed and is not retried, so it is lost to the database. |
| Client.DisconnectThenTrackIsNoOp | src/client.ts:102-112 | After a successful disconnect the queue is empty and every `track` is a no-op. |
| Client.TrackBelowBatch | src/client.ts:173-177 | Records that do not fill the batch only join the queue. |
| Client.FullBatchFlushes | src/client.ts:173-177 | Tracking `batchSize` records into an empty queue issues exactly one batch write holding them all, in order, with the adapter method the configuration selects. |
| Client.DisconnectWritesPending | src/client.ts:102-108 | Records tracked without filling a batch are written by `disconnect` as one final write holding all of them, in order. |
| Client.ReconnectLeaksTimer | src/client.ts:97-106 | Connecting twice leaves the first interval running without a handle, and still firing after `disconnect`. |
| Postgres.TableName | src/adapters/postgres.ts:20 | The table is the configured one, else `llm_tracking`. |
| Postgres.RowValues | src/adapters/postgres.ts:69-82 | A record's tuple has one value per column. `Postgres.RowFollowsColumns` and `Postgres.RowRoundTrip` give its contents. |
| Postgres.RowFollowsColumns | src/adapters/postgres.ts:66-82 | The `j`-th value of a record's tuple is what the record stores in the `j`-th column. |
| Postgres.RowRoundTrip | src/adapters/postgres.ts:69-82 | Reading a tuple back gives the record, including an absent cost or error. |
| Postgres.Group | src/adapters/postgres.ts:94-97 | The placeholder group of record `i`. It has no contract of its own; `Postgres.GroupRefs` characterises it. |
| Postgres.GroupRefs | src/adapters/postgres.ts:94-97 | Group `i` references `$12i+1` to `$12i+12`, in order. |
| Postgres.GroupsRefs | src/adapters/postgres.ts:93-97 | Consecutive groups reference consecutive runs of twelve parameters. |
| Postgres.ValuesText | src/adapters/postgres.ts:117 | The comma-joined groups. It has no contract of its own; `Postgres.ValuesTextRefs` characterises it. |
| Postgres.ValuesTextRefs | src/adapters/postgres.ts:117 | The `VALUES` list of `n` records references `$1` to `$12n`, each once, in order. |
| Postgres.InsertPrefix | src/adapters/postgres.ts:115-117 | The statement text up to the groups. It has no contract of its own; `Postgres.PrefixRefs` characterises it. |
| Postgres.PrefixRefs | src/adapters/postgres.ts:115-116 | Before `VALUES` the statement references no parameter, given a table name without `$`. |
| Postgres.BatchValuesAt | src/adapters/postgres.ts:98-111 | Value `j` of record `i` is parameter `12i + j`. |
| Postgres.BatchSlice | src/adapters/postgres.ts:93-111 | Parameters `12i..12i+11` are record `i`'s tuple and read back as that record. |
| Postgres.BuildBatch | src/adapters/postgres.ts:90-112 | The `forEach` yields one group and twelve values per record, in record order. |
| Postgres.SaveBatch | src/adapters/postgres.ts:86-120 | No statement for an empty batch. Otherwise `12n` values aligned with the columns, and a text referencing `$1..$12n` in order. |
| Postgres.InsertRefs | src/adapters/postgres.ts:66-68 | A single-group statement references exactly that group's twelve parameters. |
| Postgres.Save | src/adapters/postgres.ts:63-84 | Twelve values in column order and a text referencing `$1..$12`. It sends exactly what `saveBatch` sends for a batch of one. |
| Postgres.BatchOfOne | src/adapters/postgres.ts:86-120 | A batch of one record is the first group with that record's tuple. |
| Postgres.Push | src/adapters/postgres.ts:129-132 | Each push keeps the condition and value lists in step with the conditions emitted, and advances the index. |
| Postgres.Conditions | src/adapters/postgres.ts:129-148 | At most five conditions, and none exactly when no field of the filter is truthy. `Postgres.ConditionsMeanFilter` gives their meaning. |
| Postgres.ConditionText | src/adapters/postgres.ts:130-146 | The text of a condition bound to `$k`. It has no contract of its own; `Postgres.ConditionTextRefs` characterises it. |
| Postgres.ConditionTextRefs | src/adapters/postgres.ts:130-146 | A condition whose column holds no `$` references exactly `$k`. |
| Postgres.Parameters | src/adapters/postgres.ts:131-147 | One value per condition, the `k`-th being the value the `k`-th condition compares with. |
| Postgres.BuildStatsFilter | src/adapters/postgres.ts:125-148 | The lists built are the conditions of the truthy fields, in fixed order, numbered from `$1`, with their values aligned. |
| Postgres.WhereClause | src/adapters/postgres.ts:150 | The clause is empty exactly when there are no conditions. |
| Postgres.WhereRefs | src/adapters/postgres.ts:150 | Joined with ` AND `, conditions whose columns hold no `$` reference `$1..$n` in order. |
| Postgres.WhereClauseRefs | src/adapters/postgres.ts:125-150 | The `k`-th condition binds `$k`, and there are as many references as values. |
| Postgres.FieldConditionsMean | src/adapters/postgres.ts:129-148 | Each field's condition holds exactly when the record agrees with that field. Both date bounds are inclusive. |
| Postgres.ConditionsMeanFilter | src/adapters/postgres.ts:129-148 | A record satisfies every emitted condition exactly when it matches the filter. |

## Left out

- Provider SDK calls and their construction are left out because they are foreign libraries and network I/O. This covers the OpenAI, Anthropic, Gemini and Bedrock clients, the lazy getters, the dynamic import of the Bedrock SDK and the `ConverseCommand` it builds. Their results enter as oracles.
- Real time and timers are left out. `Date.now`, `new Date()`, `setTimeout` and `setInterval` become values: clock readings are parameters, sleeps are recorded durations, and the interval is an explicit `TickEvent`.
- Concurrency is left out. This covers the un-awaited `track` calls, the parallel `save` calls of a batch without `saveBatch` (modelled as one write of the whole batch), and the suspension and early cancellation of async generators. Events are modelled in sequence.
- `generateRequestId` randomness is left out; the id is a parameter. Console logging is left out too, as it has no effect on state.
- JSON parsing and the HTTP request of `fetchPricing` are left out; the parsed document is the input. A non-numeric cost field and prototype keys such as `__proto__` are not modelled.
- Pricing.CalculateCost: costs are exact `real` values, not IEEE-754 doubles. Rounding, `NaN` and infinite prices are not modelled.
- Records.ExecuteOpenAILike, Records.ExecuteClaude, Records.ExecuteGemini, Records.ExecuteBedrock, Records.StreamOpenAILike and Records.StreamClaude: token counts are natural numbers, so a negative or fractional count from a provider is not modelled.
- Retry.IsRetryableError: lower-casing is ASCII-only. JavaScript's Unicode `toLowerCase` maps some non-ASCII characters to ASCII letters (the Kelvin sign to `k`), and the model does not.
- Retry.WithRetry: `maxRetries` is an integer; a fractional or `NaN` budget is not modelled.
- Retry.Delay: delays are exact `real` values, not IEEE-754 doubles, so rounding of `delay * backoffMultiplier` and `NaN` or infinite settings are not modelled.
- Records.ExecuteOpenAILike, Records.ExecuteClaude and Records.ExecuteGemini: the response is modelled only by its `usageInfo`. The provider's response fields the source spreads into it unchanged are not modelled.
- Client.Track: `batchSize` and `batchIntervalMs` are integers tested for truthiness; a fractional or `NaN` setting is not modelled.
- Postgres.Save: the twelve placeholders the source writes out literally are modelled as group 0 of the batch statement, the same text `($1, ..., $12)`.
- Postgres statement execution is left out. This covers the connection pool, `CREATE TABLE`, the `SELECT` aggregate text of `getStats`, the conversion of result rows to numbers, and the `DECIMAL(10, 6)` rounding of stored costs.
- The MySQL, TypeORM and MongoDB adapters are left out, because they are driver I/O over the same record.
- The Azure client's base URL and API version defaults are left out, because they are SDK construction.
