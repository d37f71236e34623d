/** The synchronous script that queries the o1 model once. It declares its own
    pricing function and its own response mapping; the `TokenUsage` record it
    declares has the same four fields as the client's and is shared here. */
module O1Script {
  import opened Wrappers
  import O1Client

  const InputPricePerM: real := 15.0
  const OutputPricePerM: real := 60.0

  /** The script's response has no thinking time. */
  datatype O1Response = O1Response(content: string, tokenUsage: O1Client.TokenUsage, cost: real)

  function CalculateCost(promptTokens: int, completionTokens: int): (cost: real)
    ensures cost * 1_000_000.0 == 15.0 * promptTokens as real + 60.0 * completionTokens as real
  {
    var inputCost := (promptTokens as real / 1_000_000.0) * InputPricePerM;
    var outputCost := (completionTokens as real / 1_000_000.0) * OutputPricePerM;
    inputCost + outputCost
  }

  /** Everything `query_o1` does after the upstream call returns. */
  function QueryO1(reply: O1Client.Completion): (r: O1Response)
    ensures r.content == reply.content
    ensures r.tokenUsage == O1Client.ToTokenUsage(reply.usage)
    ensures r.cost * 1_000_000.0
         == 15.0 * reply.usage.promptTokens as real + 60.0 * reply.usage.completionTokens as real
  {
    var usage := reply.usage;
    var tokenUsage := O1Client.TokenUsage(
      usage.promptTokens,
      usage.completionTokens,
      usage.totalTokens,
      if usage.completionTokensDetails.Some?
      then Some(usage.completionTokensDetails.value.reasoningTokens)
      else None);
    var cost := CalculateCost(tokenUsage.promptTokens, tokenUsage.completionTokens);
    O1Response(reply.content, tokenUsage, cost)
  }

  lemma CostBoundaries()
    ensures CalculateCost(1_000_000, 0) == 15.0
    ensures CalculateCost(0, 1_000_000) == 60.0
    ensures CalculateCost(0, 0) == 0.0
  {
  }

  /** The two copies of the pricing function agree on every input. */
  lemma CostAgreesWithClient(promptTokens: int, completionTokens: int)
    ensures CalculateCost(promptTokens, completionTokens)
         == O1Client.CalculateCost(promptTokens, completionTokens)
  {
  }

  /** The script's cost is priced from prompt and completion tokens, its usage
      copies the report (reasoning count absent exactly when the details are),
      and it agrees with the client's `query` on text, usage and cost. */
  lemma QueryO1AgreesWithClient(reply: O1Client.Completion, thinkingTime: real)
    ensures QueryO1(reply).cost == CalculateCost(reply.usage.promptTokens, reply.usage.completionTokens)
    ensures QueryO1(reply).tokenUsage.promptTokens == reply.usage.promptTokens
    ensures QueryO1(reply).tokenUsage.completionTokens == reply.usage.completionTokens
    ensures QueryO1(reply).tokenUsage.totalTokens == reply.usage.totalTokens
    ensures QueryO1(reply).tokenUsage.reasoningTokens.None? <==> reply.usage.completionTokensDetails.None?
    ensures QueryO1(reply).content == O1Client.Query(reply, thinkingTime).content
    ensures QueryO1(reply).tokenUsage == O1Client.Query(reply, thinkingTime).tokenUsage
    ensures QueryO1(reply).cost == O1Client.Query(reply, thinkingTime).cost
  {
  }
}
