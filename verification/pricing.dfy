/** The pricing table of src/pricing.ts: cost of a call, the import of the
    LiteLLM price document, the process-wide 24-hour cache in front of it, and
    the overlay of caller-supplied prices made when the client connects.

    The clock is read twice by a fetch: `now` at the freshness test and
    `received` once the document has been read and imported, which is the
    instant the new table is stamped with. The network fetch is the oracle
    `FetchOutcome`, already parsed from JSON. */
module Pricing {
  import opened Wrappers

  datatype ModelPricing = ModelPricing(inputCostPerToken: real, outputCostPerToken: real)

  type PricingTable = map<string, ModelPricing>

  // ---------------------------------------------------------------------------
  // Cost
  // ---------------------------------------------------------------------------

  /** What `tokens` tokens cost at `perToken` each. */
  function Charge(tokens: nat, perToken: real): real {
    tokens as real * perToken
  }

  /** `calculateCost`: no price for an unknown model, otherwise each token
      kind at its own per-token price. */
  function CalculateCost(model: string, promptTokens: nat, completionTokens: nat, pricing: PricingTable): (cost: Option<real>)
    ensures cost.None? <==> model !in pricing
  {
    if model !in pricing then None
    else
      var price := pricing[model];
      Some(Charge(promptTokens, price.inputCostPerToken) + Charge(completionTokens, price.outputCostPerToken))
  }

  /** A known model used for no tokens costs zero, which is not "unpriced". */
  lemma ZeroTokensCostZero(model: string, pricing: PricingTable)
    requires model in pricing
    ensures CalculateCost(model, 0, 0, pricing) == Some(0.0)
  {
  }

  /** Cost is additive: pricing two usages separately and adding gives the
      price of their sum. */
  lemma CostAdditive(model: string, p1: nat, c1: nat, p2: nat, c2: nat, pricing: PricingTable)
    requires model in pricing
    ensures CalculateCost(model, p1 + p2, c1 + c2, pricing).value
         == CalculateCost(model, p1, c1, pricing).value + CalculateCost(model, p2, c2, pricing).value
  {
    var price := pricing[model];
    assert (p1 + p2) as real * price.inputCostPerToken
        == p1 as real * price.inputCostPerToken + p2 as real * price.inputCostPerToken;
    assert (c1 + c2) as real * price.outputCostPerToken
        == c1 as real * price.outputCostPerToken + c2 as real * price.outputCostPerToken;
  }

  /** With non-negative prices, more tokens never cost less. */
  lemma CostMonotone(model: string, p1: nat, c1: nat, p2: nat, c2: nat, pricing: PricingTable)
    requires model in pricing
    requires pricing[model].inputCostPerToken >= 0.0 && pricing[model].outputCostPerToken >= 0.0
    requires p1 <= p2 && c1 <= c2
    ensures CalculateCost(model, p1, c1, pricing).value <= CalculateCost(model, p2, c2, pricing).value
  {
    CostAdditive(model, p1, c1, p2 - p1, c2 - c1, pricing);
    var price := pricing[model];
    assert (p2 - p1) as real * price.inputCostPerToken >= 0.0;
    assert (c2 - c1) as real * price.outputCostPerToken >= 0.0;
  }

  /** 1000 prompt and 500 completion tokens of a model priced 0.0000025 and
      0.00001 per token cost 0.0025 + 0.005. */
  lemma CostExample()
    ensures CalculateCost("gpt-4o", 1000, 500, map["gpt-4o" := ModelPricing(0.0000025, 0.00001)]) == Some(0.0075)
    ensures CalculateCost("unknown-model", 1000, 500, map["gpt-4o" := ModelPricing(0.0000025, 0.00001)]) == None
  {
  }

  // ---------------------------------------------------------------------------
  // Import of the price document
  // ---------------------------------------------------------------------------

  /** The fields of one model in the document the loop reads; each may be
      absent. */
  datatype ModelData = ModelData(
    inputCostPerToken: Option<real>,
    outputCostPerToken: Option<real>,
    mode: Option<string>)

  /** A value of the document: JSON `null` or an object. */
  datatype JsonEntry = NullEntry | Entry(data: ModelData)

  /** The key of the document's example entry, which is never imported. */
  const SampleSpecKey := "sample_spec"

  /** The loop keeps `key`: it is not the example entry, the model is a chat
      model, and both of its costs are present. */
  predicate Importable(key: string, e: JsonEntry) {
    && key != SampleSpecKey
    && e.Entry?
    && e.data.mode == Some("chat")
    && e.data.inputCostPerToken.Some?
    && e.data.outputCostPerToken.Some?
  }

  /** The loop throws on `key`: reading `mode` of a `null` value fails. The
      example entry is skipped before its value is looked at. */
  predicate ThrowsOn(key: string, e: JsonEntry) {
    key != SampleSpecKey && e.NullEntry?
  }

  function PriceOf(d: ModelData): ModelPricing
    requires d.inputCostPerToken.Some? && d.outputCostPerToken.Some?
  {
    ModelPricing(d.inputCostPerToken.value, d.outputCostPerToken.value)
  }

  /** The table the import loop yields, or `None` when it throws. */
  function Imported(data: map<string, JsonEntry>): (r: Option<PricingTable>)
    ensures r.None? <==> exists k :: k in data && ThrowsOn(k, data[k])
    ensures r.Some? ==> forall k :: k in r.value <==> k in data && Importable(k, data[k])
    ensures r.Some? ==> forall k :: k in data && Importable(k, data[k]) ==> r.value[k] == PriceOf(data[k].data)
  {
    if exists k :: k in data && ThrowsOn(k, data[k]) then None
    else Some(map k | k in data && Importable(k, data[k]) :: PriceOf(data[k].data))
  }

  /** The `for ... of Object.entries(data)` loop of `fetchPricing`, visiting
      the keys in any order: the table holds exactly the importable entries,
      costs copied as they are, and a `null` entry aborts the whole import. */
  method ImportPricing(data: map<string, JsonEntry>) returns (r: Option<PricingTable>)
    ensures r.None? <==> exists k :: k in data && ThrowsOn(k, data[k])
    ensures r.Some? ==> forall k :: k in r.value <==> k in data && Importable(k, data[k])
    ensures r.Some? ==> forall k :: k in data && Importable(k, data[k]) ==> r.value[k] == PriceOf(data[k].data)
    ensures r == Imported(data)
  {
    var pricing: PricingTable := map[];
    var remaining := data.Keys;
    while remaining != {}
      invariant remaining <= data.Keys
      invariant forall k :: k in data && k !in remaining ==> !ThrowsOn(k, data[k])
      invariant forall k :: k in pricing <==> k in data && k !in remaining && Importable(k, data[k])
      invariant forall k :: k in pricing ==> Importable(k, data[k]) && pricing[k] == PriceOf(data[k].data)
      decreases remaining
    {
      var key :| key in remaining;
      remaining := remaining - {key};
      if key == SampleSpecKey {
        continue;
      }
      match data[key] {
        case NullEntry =>
          assert ThrowsOn(key, data[key]);
          return None;
        case Entry(info) =>
          if info.mode != Some("chat") {
            continue;
          }
          if info.inputCostPerToken.None? || info.outputCostPerToken.None? {
            continue;
          }
          pricing := pricing[key := ModelPricing(info.inputCostPerToken.value, info.outputCostPerToken.value)];
      }
    }
    r := Some(pricing);
    assert pricing == map k | k in data && Importable(k, data[k]) :: PriceOf(data[k].data);
  }

  // ---------------------------------------------------------------------------
  // The 24-hour cache
  // ---------------------------------------------------------------------------

  const CacheTtlMs: int := 24 * 60 * 60 * 1000

  /** `cachedPricing` and `cacheTimestamp`. */
  datatype CacheState = CacheState(cached: Option<PricingTable>, timestamp: int)

  /** The state before the first fetch. */
  const InitialCache := CacheState(None, 0)

  /** What the request for the price document gave: the parsed document, a
      response whose status is not ok, or a thrown error (network or JSON). */
  datatype FetchOutcome =
    | Fetched(data: map<string, JsonEntry>)
    | HttpError(status: int)
    | NetworkError(message: string)

  /** The table returned, the cache afterwards, and whether a request was sent. */
  datatype FetchResult = FetchResult(table: PricingTable, cache: CacheState, requested: bool)

  /** The cached table may be used as it is at time `now`. */
  predicate Fresh(c: CacheState, now: int) {
    c.cached.Some? && now - c.timestamp < CacheTtlMs
  }

  /** `fetchPricing`: a fresh cached table is returned without a request;
      otherwise the document is requested, and a failure of any kind falls
      back to the cached table, stale or not, or to an empty table. A new
      table is stamped with the clock reading taken after the response was
      read (`received`), not with the reading of the freshness test. */
  function FetchPricing(c: CacheState, now: int, received: int, outcome: FetchOutcome): (r: FetchResult)
    ensures Fresh(c, now) ==> r == FetchResult(c.cached.value, c, false)
    ensures !Fresh(c, now) ==> r.requested
    ensures r.cache == c || r.cache == CacheState(Some(r.table), received)
    ensures r.cache != c ==> outcome.Fetched? && Imported(outcome.data) == Some(r.table)
    ensures r.table == r.cache.cached.GetOr(map[])
    ensures c.cached.Some? ==> r.cache.cached.Some?
  {
    if Fresh(c, now) then FetchResult(c.cached.value, c, false)
    else
      var fallback := FetchResult(c.cached.GetOr(map[]), c, true);
      match outcome
      case Fetched(data) =>
        (match Imported(data)
         case Some(pricing) => FetchResult(pricing, CacheState(Some(pricing), received), true)
         case None => fallback)
      case HttpError(_) => fallback
      case NetworkError(_) => fallback
  }

  /** The freshness test is strict: a table exactly 24 hours old is refetched. */
  lemma RefetchAtExactlyTtl(c: CacheState, received: int, outcome: FetchOutcome)
    requires c.cached.Some?
    ensures FetchPricing(c, c.timestamp + CacheTtlMs, received, outcome).requested
    ensures FetchPricing(c, c.timestamp + CacheTtlMs - 1, received, outcome) == FetchResult(c.cached.value, c, false)
  {
  }

  /** A successful refetch replaces the cache wholesale with the new table,
      stamped with the clock reading taken after the response was read: no
      model of the old table survives unless the new document has it. */
  lemma RefetchReplaces(c: CacheState, now: int, received: int, data: map<string, JsonEntry>)
    requires !Fresh(c, now) && Imported(data).Some?
    ensures FetchPricing(c, now, received, Fetched(data)).table == Imported(data).value
    ensures FetchPricing(c, now, received, Fetched(data)).cache == CacheState(Imported(data), received)
  {
  }

  /** A failed refetch, whether the status is not ok, the request throws or
      the document holds a `null` model, returns the previous table or an
      empty one and changes nothing. */
  lemma FailedFetchFallsBack(c: CacheState, now: int, received: int, outcome: FetchOutcome)
    requires !Fresh(c, now)
    requires !outcome.Fetched? || Imported(outcome.data).None?
    ensures FetchPricing(c, now, received, outcome) == FetchResult(c.cached.GetOr(map[]), c, true)
  {
  }

  /** Two calls in a row within the time to live return the same table, and
      the second sends no request. */
  lemma SecondCallUsesCache(
    c: CacheState, now: int, received: int, later: int, laterReceived: int, first: FetchOutcome, second: FetchOutcome)
    requires FetchPricing(c, now, received, first).cache.cached.Some?
    requires var t := FetchPricing(c, now, received, first).cache.timestamp; t <= later < t + CacheTtlMs
    ensures var r1 := FetchPricing(c, now, received, first);
            FetchPricing(r1.cache, later, laterReceived, second) == FetchResult(r1.table, r1.cache, false)
  {
  }

  // ---------------------------------------------------------------------------
  // Overlay at connect
  // ---------------------------------------------------------------------------

  /** `{ ...fetchedPricing, ...customPricing }`: the caller's prices win. */
  function MergePricing(fetched: PricingTable, custom: PricingTable): (merged: PricingTable)
    ensures merged.Keys == fetched.Keys + custom.Keys
    ensures forall k :: k in custom ==> merged[k] == custom[k]
    ensures forall k :: k in fetched && k !in custom ==> merged[k] == fetched[k]
  {
    fetched + custom
  }

  /** A model the caller priced is always charged at the caller's price, and
      any other model at the fetched price or not at all. */
  lemma OverrideDecidesCost(model: string, promptTokens: nat, completionTokens: nat, fetched: PricingTable, custom: PricingTable)
    ensures model in custom ==>
      CalculateCost(model, promptTokens, completionTokens, MergePricing(fetched, custom))
      == CalculateCost(model, promptTokens, completionTokens, custom)
    ensures model !in custom ==>
      CalculateCost(model, promptTokens, completionTokens, MergePricing(fetched, custom))
      == CalculateCost(model, promptTokens, completionTokens, fetched)
  {
  }
}
