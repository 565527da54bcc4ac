/** The shared records of the tracker: the provider enumeration, the
    tracking record written for every call, the retry policy, the filter of a
    stats query and its aggregate answer. Token counts are non-negative
    integers, money is `real`, and times are milliseconds since the epoch. */
module Types {
  import opened Wrappers

  datatype ProviderType = OpenAI | Azure | Claude | Gemini | Bedrock

  /** The provider's name as stored in the `provider` column. */
  function ProviderName(p: ProviderType): string {
    match p
    case OpenAI => "openai"
    case Azure => "azure"
    case Claude => "claude"
    case Gemini => "gemini"
    case Bedrock => "bedrock"
  }

  /** Reads a stored provider name back: it recognises exactly the five
      names `ProviderName` writes, and nothing else. */
  function ParseProvider(s: string): (r: Option<ProviderType>)
    ensures r.Some? ==> ProviderName(r.value) == s
    ensures r.None? <==> forall p: ProviderType :: ProviderName(p) != s
  {
    if s == "openai" then Some(OpenAI)
    else if s == "azure" then Some(Azure)
    else if s == "claude" then Some(Claude)
    else if s == "gemini" then Some(Gemini)
    else if s == "bedrock" then Some(Bedrock)
    else None
  }

  lemma ProviderNameRoundTrip(p: ProviderType)
    ensures ParseProvider(ProviderName(p)) == Some(p)
  {
  }

  datatype TokenUsage = TokenUsage(promptTokens: nat, completionTokens: nat, totalTokens: nat)

  const NoTokens := TokenUsage(0, 0, 0)

  /** One observation of a logical request: its outcome, usage, cost and
      latency. `costUsd` is `None` when the model is not priced; `error` is
      present on failure records only. */
  datatype TrackingData = TrackingData(
    requestId: string,
    projectName: string,
    provider: ProviderType,
    model: string,
    tokenUsage: TokenUsage,
    costUsd: Option<real>,
    timestamp: int,
    latencyMs: int,
    success: bool,
    error: Option<string>)

  /** `maxRetries` counts the attempts made after the first one. */
  datatype RetryConfig = RetryConfig(
    maxRetries: int,
    initialDelayMs: real,
    maxDelayMs: real,
    backoffMultiplier: real)

  /** Optional filter fields of a stats query; dates are instants. */
  datatype StatsFilter = StatsFilter(
    projectName: Option<string>,
    provider: Option<ProviderType>,
    model: Option<string>,
    startDate: Option<int>,
    endDate: Option<int>)

  datatype UsageStats = UsageStats(
    totalRequests: nat,
    successfulRequests: nat,
    failedRequests: nat,
    totalTokens: nat,
    totalPromptTokens: nat,
    totalCompletionTokens: nat,
    totalCostUsd: real,
    avgLatencyMs: real)
}
