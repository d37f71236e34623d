/** The pricing and usage-report mapping of the asynchronous o1 client.
    The network call and its timer are outside the model: the upstream reply
    and the measured thinking time are inputs. */
module O1Client {
  import opened Wrappers

  /** Price in USD per million prompt (input) tokens. */
  const InputPricePerM: real := 15.0
  /** Price in USD per million completion (output) tokens, reasoning included. */
  const OutputPricePerM: real := 60.0

  /** The `completion_tokens_details` part of the upstream usage report. */
  datatype CompletionTokensDetails = CompletionTokensDetails(reasoningTokens: int)

  /** The upstream usage report; its details part may be missing. */
  datatype UsageReport = UsageReport(
    promptTokens: int,
    completionTokens: int,
    totalTokens: int,
    completionTokensDetails: Option<CompletionTokensDetails>)

  /** What the upstream chat completion returns that the client reads:
      the first choice's message text and the usage report. */
  datatype Completion = Completion(content: string, usage: UsageReport)

  datatype TokenUsage = TokenUsage(
    promptTokens: int,
    completionTokens: int,
    totalTokens: int,
    reasoningTokens: Option<int>)

  datatype O1Response = O1Response(
    content: string,
    tokenUsage: TokenUsage,
    cost: real,
    thinkingTime: real)

  /** Cost in USD of a call: linear per-million pricing, no rounding.
      One million prompt tokens cost 15, one million completion tokens 60. */
  function CalculateCost(promptTokens: int, completionTokens: int): (cost: real)
    ensures cost * 1_000_000.0 == 15.0 * promptTokens as real + 60.0 * completionTokens as real
    ensures 0 <= promptTokens && 0 <= completionTokens ==> 0.0 <= cost
  {
    var inputCost := (promptTokens as real / 1_000_000.0) * InputPricePerM;
    var outputCost := (completionTokens as real / 1_000_000.0) * OutputPricePerM;
    inputCost + outputCost
  }

  /** The `TokenUsage` built from an upstream usage report. */
  function ToTokenUsage(usage: UsageReport): (t: TokenUsage)
    ensures t.totalTokens == usage.totalTokens
    ensures t.reasoningTokens.None? <==> usage.completionTokensDetails.None?
  {
    TokenUsage(
      usage.promptTokens,
      usage.completionTokens,
      usage.totalTokens,
      if usage.completionTokensDetails.Some?
      then Some(usage.completionTokensDetails.value.reasoningTokens)
      else None)
  }

  /** Everything `query` does after the upstream call returns. */
  function Query(reply: Completion, thinkingTime: real): (r: O1Response)
    ensures r.content == reply.content && r.thinkingTime == thinkingTime
    ensures r.cost * 1_000_000.0
         == 15.0 * reply.usage.promptTokens as real + 60.0 * reply.usage.completionTokens as real
  {
    var tokenUsage := ToTokenUsage(reply.usage);
    var cost := CalculateCost(tokenUsage.promptTokens, tokenUsage.completionTokens);
    O1Response(reply.content, tokenUsage, cost, thinkingTime)
  }

  lemma CostBoundaries()
    ensures CalculateCost(1_000_000, 0) == 15.0
    ensures CalculateCost(0, 1_000_000) == 60.0
    ensures CalculateCost(0, 0) == 0.0
  {
  }

  lemma CostAdditive(p1: int, c1: int, p2: int, c2: int)
    ensures CalculateCost(p1 + p2, c1 + c2) == CalculateCost(p1, c1) + CalculateCost(p2, c2)
  {
  }

  lemma CostMonotone(p1: int, c1: int, p2: int, c2: int)
    requires p1 <= p2 && c1 <= c2
    ensures CalculateCost(p1, c1) <= CalculateCost(p2, c2)
  {
  }

  /** The counts of the report are copied unchanged, and the reasoning count
      is present exactly when the report carries completion-token details. */
  lemma TokenUsageCopiesReport(usage: UsageReport)
    ensures ToTokenUsage(usage).promptTokens == usage.promptTokens
    ensures ToTokenUsage(usage).completionTokens == usage.completionTokens
    ensures ToTokenUsage(usage).totalTokens == usage.totalTokens
    ensures ToTokenUsage(usage).reasoningTokens.None? <==> usage.completionTokensDetails.None?
    ensures usage.completionTokensDetails.Some? ==>
      ToTokenUsage(usage).reasoningTokens == Some(usage.completionTokensDetails.value.reasoningTokens)
  {
  }

  /** The response carries the reply text, the copied usage and the thinking
      time, and its cost is priced from prompt and completion tokens only. */
  lemma QueryPricesPromptAndCompletion(reply: Completion, thinkingTime: real)
    ensures Query(reply, thinkingTime).content == reply.content
    ensures Query(reply, thinkingTime).tokenUsage == ToTokenUsage(reply.usage)
    ensures Query(reply, thinkingTime).thinkingTime == thinkingTime
    ensures Query(reply, thinkingTime).cost
         == CalculateCost(reply.usage.promptTokens, reply.usage.completionTokens)
  {
  }

  /** Two replies that differ only in their total and reasoning counts cost the same:
      the total is never priced, and reasoning is billed inside the completion count. */
  lemma CostIgnoresTotalAndReasoning(a: Completion, b: Completion, t: real)
    requires a.usage.promptTokens == b.usage.promptTokens
    requires a.usage.completionTokens == b.usage.completionTokens
    ensures Query(a, t).cost == Query(b, t).cost
  {
  }
}
