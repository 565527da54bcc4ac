/** The tracking records the client builds around each provider call
    (src/client.ts): the usage each provider reports, how it becomes a
    `TrackingData` on success, the failure record, the usage attached to the
    returned response, and the usage folds over streamed chunks.

    The provider call itself is an oracle: the outcomes of its attempts for
    the calls that go through the retry executor, one outcome for Bedrock,
    and the received chunks plus how the stream ended for streams. The
    request id and the clock readings come in a `CallContext`. */
module Records {
  import opened Wrappers
  import opened Types
  import opened Pricing
  import opened Retry

  /** What the call knows besides the provider's answer: the generated id, the
      configured project, the requested model, the instant the record is made
      and the elapsed milliseconds. */
  datatype CallContext = CallContext(
    requestId: string,
    projectName: string,
    model: string,
    timestamp: int,
    latencyMs: int)

  /** The record's identifying fields come from the call. */
  predicate FromContext(r: TrackingData, ctx: CallContext, provider: ProviderType) {
    && r.requestId == ctx.requestId
    && r.projectName == ctx.projectName
    && r.provider == provider
    && r.model == ctx.model
    && r.timestamp == ctx.timestamp
    && r.latencyMs == ctx.latencyMs
  }

  /** What every record the client tracks satisfies: a success carries no
      error and the cost of its own tokens under the client's price table; a
      failure carries an error, no tokens and no cost. */
  predicate Consistent(r: TrackingData, pricing: PricingTable) {
    if r.success then
      && r.error.None?
      && r.costUsd == CalculateCost(r.model, r.tokenUsage.promptTokens, r.tokenUsage.completionTokens, pricing)
    else
      && r.error.Some?
      && r.tokenUsage == NoTokens
      && r.costUsd.None?
  }

  predicate TotalIsSum(u: TokenUsage) {
    u.totalTokens == u.promptTokens + u.completionTokens
  }

  /** The record of a call that returned with the given usage. */
  function SuccessRecord(ctx: CallContext, provider: ProviderType, usage: TokenUsage, pricing: PricingTable): (r: TrackingData)
    ensures r.success && Consistent(r, pricing) && FromContext(r, ctx, provider)
    ensures r.tokenUsage == usage
  {
    TrackingData(ctx.requestId, ctx.projectName, provider, ctx.model, usage,
      CalculateCost(ctx.model, usage.promptTokens, usage.completionTokens, pricing),
      ctx.timestamp, ctx.latencyMs, true, None)
  }

  /** The record of a call that threw `message`. */
  function FailureRecord(ctx: CallContext, provider: ProviderType, message: string): (r: TrackingData)
    ensures !r.success && FromContext(r, ctx, provider)
    ensures r.error == Some(message)
    ensures forall pricing: PricingTable :: Consistent(r, pricing)
  {
    TrackingData(ctx.requestId, ctx.projectName, provider, ctx.model, NoTokens, None,
      ctx.timestamp, ctx.latencyMs, false, Some(message))
  }

  /** `err instanceof Error ? err.message : String(err)` for what the retry
      executor throws: its last error, or `null` when it made no attempt. */
  function ErrorText(thrown: Option<string>): (text: string)
    ensures thrown.Some? ==> text == thrown.value
    ensures thrown.None? ==> text == "null"
  {
    thrown.GetOr("null")
  }

  /** The `usageInfo` added to a returned response. */
  datatype UsageInfo = UsageInfo(promptTokens: nat, completionTokens: nat, totalTokens: nat, costUsd: Option<real>)

  /** The usage the caller is shown, read off the record. */
  function InfoOf(r: TrackingData): UsageInfo {
    UsageInfo(r.tokenUsage.promptTokens, r.tokenUsage.completionTokens, r.tokenUsage.totalTokens, r.costUsd)
  }

  /** A tracked call: the record handed to `track` and how the call ended for
      its caller. */
  datatype Call<R> = Call(record: TrackingData, ending: Ending<R>)

  /** The common tail of the non-streaming calls: a returned provider answer
      gives a success record and the response's usage; a thrown error gives
      the failure record and is rethrown unchanged. */
  function Finish<U>(ctx: CallContext, provider: ProviderType, ending: Ending<U>, tokens: U -> TokenUsage, pricing: PricingTable): (c: Call<UsageInfo>)
    ensures Consistent(c.record, pricing) && FromContext(c.record, ctx, provider)
    ensures c.record.success <==> ending.Returned?
    ensures ending.Returned? ==> c.record.tokenUsage == tokens(ending.value) && c.ending == Returned(InfoOf(c.record))
    ensures ending.Threw? ==> c.ending == Threw(ending.error) && c.record.error == Some(ErrorText(ending.error))
  {
    match ending
    case Returned(answer) =>
      var r := SuccessRecord(ctx, provider, tokens(answer), pricing);
      Call(r, Returned(InfoOf(r)))
    case Threw(error) =>
      Call(FailureRecord(ctx, provider, ErrorText(error)), Threw(error))
  }

  // ---------------------------------------------------------------------------
  // OpenAI and Azure
  // ---------------------------------------------------------------------------

  /** `response.usage` of a chat completion; every count may be missing. */
  datatype OpenAIUsage = OpenAIUsage(promptTokens: Option<nat>, completionTokens: Option<nat>, totalTokens: Option<nat>)

  /** `response.usage?.x ?? 0` for the three counts: the total is the
      provider's own. */
  function OpenAITokens(usage: Option<OpenAIUsage>): (t: TokenUsage)
    ensures usage.None? ==> t == NoTokens
    ensures usage.Some? ==>
      && t.promptTokens == usage.value.promptTokens.GetOr(0)
      && t.completionTokens == usage.value.completionTokens.GetOr(0)
      && t.totalTokens == usage.value.totalTokens.GetOr(0)
  {
    match usage
    case None => NoTokens
    case Some(u) => TokenUsage(u.promptTokens.GetOr(0), u.completionTokens.GetOr(0), u.totalTokens.GetOr(0))
  }

  /** `executeOpenAILike`, shared by OpenAI and Azure: the call goes through
      the retry executor under the configured policy or the default one. */
  function ExecuteOpenAILike(
    ctx: CallContext, provider: ProviderType, configured: Option<RetryConfig>,
    outcomes: seq<Attempt<Option<OpenAIUsage>>>, pricing: PricingTable): (c: Call<UsageInfo>)
    requires provider == OpenAI || provider == Azure
    requires ResolvePolicy(None, configured).maxRetries < |outcomes|
    ensures Consistent(c.record, pricing) && FromContext(c.record, ctx, provider)
    ensures c.ending.Returned? <==> c.record.success
    ensures c.ending.Returned? ==> c.ending.value == InfoOf(c.record)
    ensures c.ending.Threw? ==> c.record.error == Some(ErrorText(c.ending.error))
    ensures var run := WithRetry(ResolvePolicy(None, configured), outcomes).ending;
            && (c.record.success <==> run.Returned?)
            && (run.Returned? ==> c.record.tokenUsage == OpenAITokens(run.value))
            && (run.Threw? ==> c.ending == Threw(run.error))
  {
    Finish(ctx, provider, WithRetry(ResolvePolicy(None, configured), outcomes).ending, OpenAITokens, pricing)
  }

  /** The first answer that comes back is the one recorded, with the
      provider's own total. */
  lemma OpenAIRecordsFirstAnswer(
    ctx: CallContext, provider: ProviderType, configured: Option<RetryConfig>,
    outcomes: seq<Attempt<Option<OpenAIUsage>>>, pricing: PricingTable, k: nat)
    requires provider == OpenAI || provider == Azure
    requires k <= ResolvePolicy(None, configured).maxRetries < |outcomes|
    requires RetriedBetween(outcomes, 0, k) && outcomes[k].Ok?
    ensures var r := ExecuteOpenAILike(ctx, provider, configured, outcomes, pricing).record;
            r.success && r.tokenUsage == OpenAITokens(outcomes[k].value)
  {
    ReturnsFirstSuccess(ResolvePolicy(None, configured), outcomes, k);
  }

  /** When every attempt fails retryably the failure record carries the error
      of the last attempt the budget allows. */
  lemma OpenAIRecordsLastError(
    ctx: CallContext, provider: ProviderType, configured: Option<RetryConfig>,
    outcomes: seq<Attempt<Option<OpenAIUsage>>>, pricing: PricingTable)
    requires provider == OpenAI || provider == Azure
    requires var p := ResolvePolicy(None, configured);
             && 0 <= p.maxRetries < |outcomes|
             && forall j :: 0 <= j <= p.maxRetries ==> outcomes[j].Err? && IsRetryableError(outcomes[j].message)
    ensures var c := ExecuteOpenAILike(ctx, provider, configured, outcomes, pricing);
            var last := ResolvePolicy(None, configured).maxRetries;
            c.ending == Threw(Some(outcomes[last].message)) && c.record.error == Some(outcomes[last].message)
  {
    ExhaustsBudget(ResolvePolicy(None, configured), outcomes);
  }

  /** An error that is not retryable ends the call at the attempt that
      raised it, after the retryable failures before it: the failure record
      carries that error and the error is rethrown. */
  lemma OpenAIRecordsFatalError(
    ctx: CallContext, provider: ProviderType, configured: Option<RetryConfig>,
    outcomes: seq<Attempt<Option<OpenAIUsage>>>, pricing: PricingTable, k: nat)
    requires provider == OpenAI || provider == Azure
    requires k <= ResolvePolicy(None, configured).maxRetries < |outcomes|
    requires RetriedBetween(outcomes, 0, k)
    requires outcomes[k].Err? && !IsRetryableError(outcomes[k].message)
    ensures var c := ExecuteOpenAILike(ctx, provider, configured, outcomes, pricing);
            && c.ending == Threw(Some(outcomes[k].message))
            && c.record == FailureRecord(ctx, provider, outcomes[k].message)
  {
    StopsOnFatalError(ResolvePolicy(None, configured), outcomes, k);
  }

  /** With a negative retry budget no attempt is made, `null` is thrown, and
      the failure record's error is the text `null`. */
  lemma NegativeBudgetRecordsNull(
    ctx: CallContext, provider: ProviderType, configured: Option<RetryConfig>,
    outcomes: seq<Attempt<Option<OpenAIUsage>>>, pricing: PricingTable)
    requires provider == OpenAI || provider == Azure
    requires ResolvePolicy(None, configured).maxRetries < 0
    ensures var c := ExecuteOpenAILike(ctx, provider, configured, outcomes, pricing);
            c.ending == Threw(None) && c.record.error == Some("null")
  {
  }

  /** The recorded total is the reported one, not prompt plus completion: a
      usage reporting 10, 5 and 20 is stored with total 20, and a usage
      without a total is stored with total 0. */
  lemma ProviderTotalIsReported()
    ensures !TotalIsSum(OpenAITokens(Some(OpenAIUsage(Some(10), Some(5), Some(20)))))
    ensures OpenAITokens(Some(OpenAIUsage(Some(10), Some(5), None))) == TokenUsage(10, 5, 0)
  {
  }

  // ---------------------------------------------------------------------------
  // Claude
  // ---------------------------------------------------------------------------

  /** `response.usage` of a Claude message: both counts always present. */
  datatype ClaudeUsage = ClaudeUsage(inputTokens: nat, outputTokens: nat)

  function ClaudeTokens(u: ClaudeUsage): (t: TokenUsage)
    ensures TotalIsSum(t)
  {
    TokenUsage(u.inputTokens, u.outputTokens, u.inputTokens + u.outputTokens)
  }

  /** `executeClaude`: retried like OpenAI, but the total is computed. */
  function ExecuteClaude(
    ctx: CallContext, configured: Option<RetryConfig>,
    outcomes: seq<Attempt<ClaudeUsage>>, pricing: PricingTable): (c: Call<UsageInfo>)
    requires ResolvePolicy(None, configured).maxRetries < |outcomes|
    ensures Consistent(c.record, pricing) && FromContext(c.record, ctx, Claude)
    ensures c.ending.Returned? <==> c.record.success
    ensures c.ending.Returned? ==> c.ending.value == InfoOf(c.record)
    ensures c.ending.Threw? ==> c.record.error == Some(ErrorText(c.ending.error))
    ensures var run := WithRetry(ResolvePolicy(None, configured), outcomes).ending;
            && (c.record.success <==> run.Returned?)
            && (run.Returned? ==> c.record.tokenUsage == ClaudeTokens(run.value))
            && (run.Threw? ==> c.ending == Threw(run.error))
    ensures TotalIsSum(c.record.tokenUsage)
  {
    Finish(ctx, Claude, WithRetry(ResolvePolicy(None, configured), outcomes).ending, ClaudeTokens, pricing)
  }

  /** The first Claude answer that comes back is recorded with its
      `input_tokens` and `output_tokens` and their sum. */
  lemma ClaudeRecordsFirstAnswer(
    ctx: CallContext, configured: Option<RetryConfig>,
    outcomes: seq<Attempt<ClaudeUsage>>, pricing: PricingTable, k: nat)
    requires k <= ResolvePolicy(None, configured).maxRetries < |outcomes|
    requires RetriedBetween(outcomes, 0, k) && outcomes[k].Ok?
    ensures var r := ExecuteClaude(ctx, configured, outcomes, pricing).record;
            var u := outcomes[k].value;
            r.success && r.tokenUsage == TokenUsage(u.inputTokens, u.outputTokens, u.inputTokens + u.outputTokens)
  {
    ReturnsFirstSuccess(ResolvePolicy(None, configured), outcomes, k);
  }

  // ---------------------------------------------------------------------------
  // Gemini
  // ---------------------------------------------------------------------------

  /** `response.response.usageMetadata`; every count may be missing. */
  datatype GeminiUsage = GeminiUsage(promptTokenCount: Option<nat>, candidatesTokenCount: Option<nat>, totalTokenCount: Option<nat>)

  /** `usageMetadata?.x ?? 0` for the three counts: the total is the
      provider's own. */
  function GeminiTokens(usage: Option<GeminiUsage>): (t: TokenUsage)
    ensures usage.None? ==> t == NoTokens
    ensures usage.Some? ==>
      && t.promptTokens == usage.value.promptTokenCount.GetOr(0)
      && t.completionTokens == usage.value.candidatesTokenCount.GetOr(0)
      && t.totalTokens == usage.value.totalTokenCount.GetOr(0)
  {
    match usage
    case None => NoTokens
    case Some(u) => TokenUsage(u.promptTokenCount.GetOr(0), u.candidatesTokenCount.GetOr(0), u.totalTokenCount.GetOr(0))
  }

  /** `executeGemini`: retried, with the provider's own total. */
  function ExecuteGemini(
    ctx: CallContext, configured: Option<RetryConfig>,
    outcomes: seq<Attempt<Option<GeminiUsage>>>, pricing: PricingTable): (c: Call<UsageInfo>)
    requires ResolvePolicy(None, configured).maxRetries < |outcomes|
    ensures Consistent(c.record, pricing) && FromContext(c.record, ctx, Gemini)
    ensures c.ending.Returned? <==> c.record.success
    ensures c.ending.Returned? ==> c.ending.value == InfoOf(c.record)
    ensures c.ending.Threw? ==> c.record.error == Some(ErrorText(c.ending.error))
    ensures var run := WithRetry(ResolvePolicy(None, configured), outcomes).ending;
            && (c.record.success <==> run.Returned?)
            && (run.Returned? ==> c.record.tokenUsage == GeminiTokens(run.value))
            && (run.Threw? ==> c.ending == Threw(run.error))
  {
    Finish(ctx, Gemini, WithRetry(ResolvePolicy(None, configured), outcomes).ending, GeminiTokens, pricing)
  }

  /** The first Gemini answer that comes back is recorded with the counts of
      its `usageMetadata`, each 0 when missing, and the provider's own total;
      an answer without metadata is recorded with zeros. */
  lemma GeminiRecordsFirstAnswer(
    ctx: CallContext, configured: Option<RetryConfig>,
    outcomes: seq<Attempt<Option<GeminiUsage>>>, pricing: PricingTable, k: nat)
    requires k <= ResolvePolicy(None, configured).maxRetries < |outcomes|
    requires RetriedBetween(outcomes, 0, k) && outcomes[k].Ok?
    ensures var r := ExecuteGemini(ctx, configured, outcomes, pricing).record;
            var meta := outcomes[k].value;
            && r.success
            && (meta.None? ==> r.tokenUsage == NoTokens)
            && (meta.Some? ==>
                  && r.tokenUsage.promptTokens == meta.value.promptTokenCount.GetOr(0)
                  && r.tokenUsage.completionTokens == meta.value.candidatesTokenCount.GetOr(0)
                  && r.tokenUsage.totalTokens == meta.value.totalTokenCount.GetOr(0))
  {
    ReturnsFirstSuccess(ResolvePolicy(None, configured), outcomes, k);
  }

  /** A Gemini answer whose metadata lacks the total is recorded with total 0
      whatever its other counts, at whichever attempt it arrives. */
  lemma GeminiMissingTotalIsZero(
    ctx: CallContext, configured: Option<RetryConfig>,
    outcomes: seq<Attempt<Option<GeminiUsage>>>, pricing: PricingTable, k: nat,
    prompt: Option<nat>, candidates: Option<nat>)
    requires k <= ResolvePolicy(None, configured).maxRetries < |outcomes|
    requires RetriedBetween(outcomes, 0, k)
    requires outcomes[k] == Ok(Some(GeminiUsage(prompt, candidates, None)))
    ensures var r := ExecuteGemini(ctx, configured, outcomes, pricing).record;
            r.success && r.tokenUsage == TokenUsage(prompt.GetOr(0), candidates.GetOr(0), 0)
  {
    ReturnsFirstSuccess(ResolvePolicy(None, configured), outcomes, k);
  }

  // ---------------------------------------------------------------------------
  // Bedrock
  // ---------------------------------------------------------------------------

  /** `response.usage` of a Converse answer. */
  datatype BedrockUsage = BedrockUsage(inputTokens: Option<nat>, outputTokens: Option<nat>)

  /** The parts of a Converse answer the client reads: the text of the first
      content block (absent when any step of the path is), the usage and the
      stop reason. */
  datatype BedrockOutput = BedrockOutput(text: Option<string>, usage: Option<BedrockUsage>, stopReason: Option<string>)

  datatype BedrockResponse = BedrockResponse(
    content: string,
    model: string,
    inputTokens: nat,
    outputTokens: nat,
    stopReason: string,
    usageInfo: UsageInfo)

  /** `usage?.inputTokens ?? 0` and `usage?.outputTokens ?? 0`, total their
      sum. */
  function BedrockTokens(usage: Option<BedrockUsage>): (t: TokenUsage)
    ensures TotalIsSum(t)
    ensures usage.None? ==> t == NoTokens
    ensures usage.Some? ==>
      t.promptTokens == usage.value.inputTokens.GetOr(0) && t.completionTokens == usage.value.outputTokens.GetOr(0)
  {
    var input := if usage.Some? then usage.value.inputTokens.GetOr(0) else 0;
    var output := if usage.Some? then usage.value.outputTokens.GetOr(0) else 0;
    TokenUsage(input, output, input + output)
  }

  /** `executeBedrock`: one attempt, not retried whatever the error; the
      response carries defaults for a missing text and stop reason. */
  function ExecuteBedrock(ctx: CallContext, outcome: Attempt<BedrockOutput>, pricing: PricingTable): (c: Call<BedrockResponse>)
    ensures Consistent(c.record, pricing) && FromContext(c.record, ctx, Bedrock)
    ensures TotalIsSum(c.record.tokenUsage)
    ensures c.ending.Returned? <==> outcome.Ok?
    ensures outcome.Err? ==> c.ending == Threw(Some(outcome.message)) && c.record.error == Some(outcome.message)
    ensures outcome.Ok? ==>
      var resp := c.ending.value;
      && c.record.tokenUsage == BedrockTokens(outcome.value.usage)
      && resp.usageInfo == InfoOf(c.record)
      && resp.model == ctx.model
      && resp.inputTokens == c.record.tokenUsage.promptTokens
      && resp.outputTokens == c.record.tokenUsage.completionTokens
      && resp.content == outcome.value.text.GetOr("")
      && resp.stopReason == outcome.value.stopReason.GetOr("end_turn")
  {
    match outcome
    case Err(message) =>
      Call(FailureRecord(ctx, Bedrock, message), Threw(Some(message)))
    case Ok(out) =>
      var t := BedrockTokens(out.usage);
      var r := SuccessRecord(ctx, Bedrock, t, pricing);
      Call(r, Returned(BedrockResponse(out.text.GetOr(""), ctx.model, t.promptTokens, t.completionTokens,
        out.stopReason.GetOr("end_turn"), InfoOf(r))))
  }

  /** A Converse answer reporting both counts is recorded, and returned, with
      exactly those counts and their sum. */
  lemma BedrockRecordsReportedCounts(
    ctx: CallContext, text: Option<string>, input: nat, output: nat, stopReason: Option<string>, pricing: PricingTable)
    ensures var c := ExecuteBedrock(ctx, Ok(BedrockOutput(text, Some(BedrockUsage(Some(input), Some(output))), stopReason)), pricing);
            && c.record.success
            && c.record.tokenUsage == TokenUsage(input, output, input + output)
            && c.ending.value.inputTokens == input && c.ending.value.outputTokens == output
            && c.ending.value.usageInfo.totalTokens == input + output
  {
  }

  /** Bedrock is not retried: an error the retry executor would retry still
      ends the call at once with a failure record. */
  lemma BedrockNotRetried(ctx: CallContext, message: string, pricing: PricingTable)
    requires IsRetryableError(message)
    ensures var c := ExecuteBedrock(ctx, Err(message), pricing);
            !c.record.success && c.ending == Threw(Some(message))
  {
  }

  // ---------------------------------------------------------------------------
  // Streams
  // ---------------------------------------------------------------------------

  /** The last present value of `xs`, if any. */
  function LastPresent<T>(xs: seq<Option<T>>): (r: Option<T>)
    ensures r.None? <==> forall i :: 0 <= i < |xs| ==> xs[i].None?
    ensures r.Some? ==> exists i :: 0 <= i < |xs| && xs[i] == r && forall j :: i < j < |xs| ==> xs[j].None?
  {
    if |xs| == 0 then None
    else if xs[|xs| - 1].Some? then xs[|xs| - 1]
    else
      var init := xs[..|xs| - 1];
      assert forall i :: 0 <= i < |init| ==> init[i] == xs[i];
      LastPresent(init)
  }

  lemma LastPresentSnoc<T>(xs: seq<Option<T>>, x: Option<T>)
    ensures LastPresent(xs + [x]) == if x.Some? then x else LastPresent(xs)
  {
    assert (xs + [x])[..|xs|] == xs;
  }

  /** How a stream ended: every chunk was received, or an error was thrown,
      either by the request or part way through. */
  datatype StreamEnd = Completed | Failed(message: string)

  /** A stream as its caller sees it: the chunks handed on, the record
      tracked afterwards, and the error rethrown at the end, if any. */
  datatype StreamRun<C> = StreamRun(yielded: seq<C>, record: TrackingData, thrown: Option<string>)

  /** The counts of the usage chunk that won: `prompt_tokens ?? 0` and
      `completion_tokens ?? 0`, or zeros when no chunk carried usage. */
  function UsageCounts(u: Option<OpenAIUsage>): (nat, nat) {
    match u
    case None => (0, 0)
    case Some(usage) => (usage.promptTokens.GetOr(0), usage.completionTokens.GetOr(0))
  }

  /** The loop of `streamOpenAI` and `streamAzure` over the `usage` field of
      each chunk: the last chunk carrying usage decides both counts. */
  method FoldOpenAIStream(chunks: seq<Option<OpenAIUsage>>) returns (promptTokens: nat, completionTokens: nat)
    ensures (promptTokens, completionTokens) == UsageCounts(LastPresent(chunks))
    ensures (forall i :: 0 <= i < |chunks| ==> chunks[i].None?) ==> promptTokens == 0 && completionTokens == 0
  {
    promptTokens := 0;
    completionTokens := 0;
    for i := 0 to |chunks|
      invariant (promptTokens, completionTokens) == UsageCounts(LastPresent(chunks[..i]))
    {
      LastPresentSnoc(chunks[..i], chunks[i]);
      assert chunks[..i + 1] == chunks[..i] + [chunks[i]];
      if chunks[i].Some? {
        promptTokens := chunks[i].value.promptTokens.GetOr(0);
        completionTokens := chunks[i].value.completionTokens.GetOr(0);
      }
    }
    assert chunks[..|chunks|] == chunks;
  }

  /** `streamOpenAI` and `streamAzure`: not retried; a stream that completes
      is recorded with the counts of its last usage chunk and their sum as the
      total, and a stream that fails is recorded with zeros, whatever usage
      it had already received. */
  function StreamOpenAILike(
    ctx: CallContext, provider: ProviderType, chunks: seq<Option<OpenAIUsage>>, end: StreamEnd, pricing: PricingTable)
    : (s: StreamRun<Option<OpenAIUsage>>)
    requires provider == OpenAI || provider == Azure
    ensures s.yielded == chunks
    ensures Consistent(s.record, pricing) && FromContext(s.record, ctx, provider)
    ensures TotalIsSum(s.record.tokenUsage)
    ensures s.record.success <==> end.Completed?
    ensures s.thrown.None? <==> end.Completed?
    ensures end.Completed? ==>
      (s.record.tokenUsage.promptTokens, s.record.tokenUsage.completionTokens) == UsageCounts(LastPresent(chunks))
    ensures end.Failed? ==> s.thrown == Some(end.message) && s.record.error == Some(end.message)
  {
    match end
    case Completed =>
      var (p, c) := UsageCounts(LastPresent(chunks));
      StreamRun(chunks, SuccessRecord(ctx, provider, TokenUsage(p, c, p + c), pricing), None)
    case Failed(message) =>
      StreamRun(chunks, FailureRecord(ctx, provider, message), Some(message))
  }

  /** The events of a Claude stream that matter to the counts: the start
      event with its input count when it carries usage, the delta event with
      its output count when it carries usage, and any other event. */
  datatype ClaudeEvent = MessageStart(inputTokens: Option<nat>) | MessageDelta(outputTokens: Option<nat>) | OtherEvent

  function StartInput(e: ClaudeEvent): Option<nat> {
    if e.MessageStart? then e.inputTokens else None
  }

  function DeltaOutput(e: ClaudeEvent): Option<nat> {
    if e.MessageDelta? then e.outputTokens else None
  }

  function Inputs(events: seq<ClaudeEvent>): (r: seq<Option<nat>>)
    ensures |r| == |events| && forall i :: 0 <= i < |events| ==> r[i] == StartInput(events[i])
  {
    seq(|events|, i requires 0 <= i < |events| => StartInput(events[i]))
  }

  function Outputs(events: seq<ClaudeEvent>): (r: seq<Option<nat>>)
    ensures |r| == |events| && forall i :: 0 <= i < |events| ==> r[i] == DeltaOutput(events[i])
  {
    seq(|events|, i requires 0 <= i < |events| => DeltaOutput(events[i]))
  }

  /** The loop of `streamClaude`: the prompt count is the last start event's
      and the completion count the last delta event's, each independently
      of the other kind. */
  method FoldClaudeStream(events: seq<ClaudeEvent>) returns (promptTokens: nat, completionTokens: nat)
    ensures promptTokens == LastPresent(Inputs(events)).GetOr(0)
    ensures completionTokens == LastPresent(Outputs(events)).GetOr(0)
  {
    promptTokens := 0;
    completionTokens := 0;
    for i := 0 to |events|
      invariant promptTokens == LastPresent(Inputs(events[..i])).GetOr(0)
      invariant completionTokens == LastPresent(Outputs(events[..i])).GetOr(0)
    {
      var e := events[i];
      FoldClaudeStep(events, i);
      if e.MessageStart? && e.inputTokens.Some? {
        promptTokens := e.inputTokens.value;
      }
      if e.MessageDelta? && e.outputTokens.Some? {
        completionTokens := e.outputTokens.value;
      }
    }
    assert events[..|events|] == events;
  }

  /** One more event updates each count only when it carries that count. */
  lemma FoldClaudeStep(events: seq<ClaudeEvent>, i: nat)
    requires i < |events|
    ensures LastPresent(Inputs(events[..i + 1]))
         == if StartInput(events[i]).Some? then StartInput(events[i]) else LastPresent(Inputs(events[..i]))
    ensures LastPresent(Outputs(events[..i + 1]))
         == if DeltaOutput(events[i]).Some? then DeltaOutput(events[i]) else LastPresent(Outputs(events[..i]))
  {
    var e := events[i];
    assert events[..i + 1] == events[..i] + [e];
    assert Inputs(events[..i + 1]) == Inputs(events[..i]) + [StartInput(e)];
    assert Outputs(events[..i + 1]) == Outputs(events[..i]) + [DeltaOutput(e)];
    LastPresentSnoc(Inputs(events[..i]), StartInput(e));
    LastPresentSnoc(Outputs(events[..i]), DeltaOutput(e));
  }

  /** `streamClaude`: not retried; counts from the last start and delta
      events, total their sum, zeros on failure. */
  function StreamClaude(ctx: CallContext, events: seq<ClaudeEvent>, end: StreamEnd, pricing: PricingTable): (s: StreamRun<ClaudeEvent>)
    ensures s.yielded == events
    ensures Consistent(s.record, pricing) && FromContext(s.record, ctx, Claude)
    ensures TotalIsSum(s.record.tokenUsage)
    ensures s.record.success <==> end.Completed?
    ensures s.thrown.None? <==> end.Completed?
    ensures end.Completed? ==>
      && s.record.tokenUsage.promptTokens == LastPresent(Inputs(events)).GetOr(0)
      && s.record.tokenUsage.completionTokens == LastPresent(Outputs(events)).GetOr(0)
    ensures end.Failed? ==> s.thrown == Some(end.message) && s.record.error == Some(end.message)
  {
    match end
    case Completed =>
      var p := LastPresent(Inputs(events)).GetOr(0);
      var c := LastPresent(Outputs(events)).GetOr(0);
      StreamRun(events, SuccessRecord(ctx, Claude, TokenUsage(p, c, p + c), pricing), None)
    case Failed(message) =>
      StreamRun(events, FailureRecord(ctx, Claude, message), Some(message))
  }

  /** A delta event carrying usage sets the completion count and leaves the
      prompt count as it was. */
  lemma ClaudeDeltaSetsCompletion(ctx: CallContext, events: seq<ClaudeEvent>, output: nat, pricing: PricingTable)
    ensures var before := StreamClaude(ctx, events, Completed, pricing).record.tokenUsage;
            var after := StreamClaude(ctx, events + [MessageDelta(Some(output))], Completed, pricing).record.tokenUsage;
            after == TokenUsage(before.promptTokens, output, before.promptTokens + output)
  {
    var e := events + [MessageDelta(Some(output))];
    assert Inputs(e) == Inputs(events) + [None];
    assert Outputs(e) == Outputs(events) + [Some(output)];
    LastPresentSnoc(Inputs(events), None);
    LastPresentSnoc(Outputs(events), Some(output));
  }

  /** The last present value of `xs + ys` is the last one of `ys`, if it
      has one, and otherwise the last one of `xs`. */
  lemma {:induction false} LastPresentAppend<T>(xs: seq<Option<T>>, ys: seq<Option<T>>)
    ensures LastPresent(xs + ys) == if LastPresent(ys).Some? then LastPresent(ys) else LastPresent(xs)
    decreases |ys|
  {
    if |ys| == 0 {
      assert xs + ys == xs;
    } else {
      var init, y := ys[..|ys| - 1], ys[|ys| - 1];
      assert ys == init + [y];
      assert xs + ys == (xs + init) + [y];
      LastPresentSnoc(xs + init, y);
      LastPresentSnoc(init, y);
      LastPresentAppend(xs, init);
    }
  }

  /** Swapping two neighbours of which at most one is present does not
      change the last present value. */
  lemma LastPresentSwap<T>(xs: seq<Option<T>>, p: Option<T>, q: Option<T>, ys: seq<Option<T>>)
    requires p.None? || q.None?
    ensures LastPresent(xs + [p, q] + ys) == LastPresent(xs + [q, p] + ys)
  {
    LastPresentAppend(xs + [p, q], ys);
    LastPresentAppend(xs + [q, p], ys);
    assert xs + [p, q] == (xs + [p]) + [q];
    assert xs + [q, p] == (xs + [q]) + [p];
    LastPresentSnoc(xs + [p], q);
    LastPresentSnoc(xs, p);
    LastPresentSnoc(xs + [q], p);
    LastPresentSnoc(xs, q);
  }

  /** The counts do not depend on how start and delta events interleave:
      swapping two neighbouring events that are not both start events and
      not both delta events leaves the record unchanged. Hence a delta
      before the start gives the same counts as after it. */
  lemma ClaudeStreamOrder(
    ctx: CallContext, before: seq<ClaudeEvent>, a: ClaudeEvent, b: ClaudeEvent, after: seq<ClaudeEvent>, pricing: PricingTable)
    requires !(a.MessageStart? && b.MessageStart?) && !(a.MessageDelta? && b.MessageDelta?)
    ensures StreamClaude(ctx, before + [a, b] + after, Completed, pricing).record
         == StreamClaude(ctx, before + [b, a] + after, Completed, pricing).record
  {
    var ab, ba := before + [a, b] + after, before + [b, a] + after;
    assert LastPresent(Inputs(ab)) == LastPresent(Inputs(ba)) by {
      ProjectionsOfSwap(before, a, b, after);
      ProjectionsOfSwap(before, b, a, after);
      LastPresentSwap(Inputs(before), StartInput(a), StartInput(b), Inputs(after));
    }
    assert LastPresent(Outputs(ab)) == LastPresent(Outputs(ba)) by {
      ProjectionsOfSwap(before, a, b, after);
      ProjectionsOfSwap(before, b, a, after);
      LastPresentSwap(Outputs(before), DeltaOutput(a), DeltaOutput(b), Outputs(after));
    }
  }

  lemma ProjectionsOfSwap(before: seq<ClaudeEvent>, a: ClaudeEvent, b: ClaudeEvent, after: seq<ClaudeEvent>)
    ensures Inputs(before + [a, b] + after) == Inputs(before) + [StartInput(a), StartInput(b)] + Inputs(after)
    ensures Outputs(before + [a, b] + after) == Outputs(before) + [DeltaOutput(a), DeltaOutput(b)] + Outputs(after)
  {
    var e := before + [a, b] + after;
    var n := |before|;
    assert forall i :: 0 <= i < n ==> e[i] == before[i];
    assert e[n] == a && e[n + 1] == b;
    assert forall i :: n + 2 <= i < |e| ==> e[i] == after[i - n - 2];
  }
}
