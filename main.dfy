/** The chat and statistics endpoints: authentication by key, the accounting
    step after the upstream reply, and the read-only statistics lookup. */
module Server {
  import opened Wrappers
  import opened Models
  import O1Client

  datatype HttpError = HttpError(statusCode: int, detail: string)

  /** The refusal for a key that no user holds. */
  const InvalidApiKey: HttpError := HttpError(401, "Invalid API key")

  datatype ChatResponse = ChatResponse(content: string, totalTokens: int, cost: real, userTotalCost: real)

  datatype UserStats = UserStats(name: string, totalTokens: int, totalCost: real, lastUsed: Moment)

  /** `get_user`: the user whose token is the key, or a 401 refusal. */
  function GetUser(table: UserTable, apiKey: string): (r: Result<User, HttpError>)
    reads table
    ensures r.Failure? <==> !table.HasToken(apiKey)
    ensures r.Failure? ==> r.error == InvalidApiKey
    ensures r.Success? ==> r.value in table.users && r.value.token == apiKey
  {
    match table.Find(apiKey)
    case None => Failure(InvalidApiKey)
    case Some(i) => Success(table.users[i])
  }

  /** `chat`: authenticate, price the upstream reply, add its total tokens and
      cost to the user's ledger, and report the new cumulative cost. An unknown
      key is refused before the reply is looked at and changes no record. No
      admission check is made, and no address is recorded. */
  method Chat(table: UserTable, apiKey: string, reply: O1Client.Completion, thinkingTime: real, now: Moment)
    returns (r: Result<ChatResponse, HttpError>)
    requires table.Valid()
    modifies table.users
    ensures r.Failure? <==> !table.HasToken(apiKey)
    ensures r.Failure? ==> r.error == InvalidApiKey
    ensures forall u :: u in table.users ==>
      u.State() == if u.token == apiKey
                   then AfterUsage(old(u.State()), reply.usage.totalTokens,
                                   O1Client.CalculateCost(reply.usage.promptTokens, reply.usage.completionTokens),
                                   None, now)
                   else old(u.State())
    ensures r.Success? ==>
      r.value.content == reply.content &&
      r.value.totalTokens == reply.usage.totalTokens &&
      r.value.cost == O1Client.CalculateCost(reply.usage.promptTokens, reply.usage.completionTokens)
    ensures forall u :: u in table.users && u.token == apiKey ==>
      r.Success? && r.value.userTotalCost == old(u.totalCost) + r.value.cost
  {
    var found := GetUser(table, apiKey);
    if found.Failure? {
      return Failure(found.error);
    }
    var user := found.value;
    var response := O1Client.Query(reply, thinkingTime);
    user.UpdateUsage(response.tokenUsage.totalTokens, response.cost, None, now);
    r := Success(ChatResponse(response.content, response.tokenUsage.totalTokens, response.cost, user.totalCost));
    forall u | u in table.users && u.token == apiKey
      ensures u == user
    {
      FoundIsUnique(table, apiKey, u);
    }
  }

  /** `get_user_stats`: the name, totals and last-use time of the user holding the key. */
  function GetUserStats(table: UserTable, apiKey: string): (r: Result<UserStats, HttpError>)
    reads table, table.users
    ensures r.Failure? <==> !table.HasToken(apiKey)
    ensures r.Failure? ==> r.error == InvalidApiKey
    ensures r.Success? ==>
      exists u :: u in table.users && u.token == apiKey &&
                  r.value == UserStats(u.name, u.totalTokens, u.totalCost, u.lastUsedAt)
  {
    match GetUser(table, apiKey)
    case Failure(e) => Failure(e)
    case Success(u) => Success(UserStats(u.name, u.totalTokens, u.totalCost, u.lastUsedAt))
  }

  /** The ledger after a run of successful chats, in order; chat `i` is
      stamped with `moments[i]`. */
  function AfterChats(s: LedgerState, replies: seq<O1Client.Completion>, moments: seq<Moment>): LedgerState
    requires |moments| == |replies|
    decreases |replies|
  {
    if |replies| == 0 then s
    else
      var reply := replies[0];
      var cost := O1Client.CalculateCost(reply.usage.promptTokens, reply.usage.completionTokens);
      AfterChats(AfterUsage(s, reply.usage.totalTokens, cost, None, moments[0]), replies[1..], moments[1..])
  }

  function SumCosts(replies: seq<O1Client.Completion>): real
    decreases |replies|
  {
    if |replies| == 0 then 0.0
    else O1Client.CalculateCost(replies[0].usage.promptTokens, replies[0].usage.completionTokens)
         + SumCosts(replies[1..])
  }

  function SumTokens(replies: seq<O1Client.Completion>): int
    decreases |replies|
  {
    if |replies| == 0 then 0 else replies[0].usage.totalTokens + SumTokens(replies[1..])
  }

  /** After `N` successful chats the user's totals have grown by exactly the sum of
      the calls' costs and total tokens, the last-use time is that of the last chat,
      and the activity flag, the limit, the daily counter and its date are never
      consulted or changed. */
  lemma {:induction false} ChatsAccumulate(s: LedgerState, replies: seq<O1Client.Completion>, moments: seq<Moment>)
    requires |moments| == |replies|
    ensures AfterChats(s, replies, moments).totalCost == s.totalCost + SumCosts(replies)
    ensures AfterChats(s, replies, moments).totalTokens == s.totalTokens + SumTokens(replies)
    ensures AfterChats(s, replies, moments).lastUsedAt
         == if |moments| == 0 then s.lastUsedAt else moments[|moments| - 1]
    ensures AfterChats(s, replies, moments).isActive == s.isActive
    ensures AfterChats(s, replies, moments).usageLimit == s.usageLimit
    ensures AfterChats(s, replies, moments).dailyRequestCount == s.dailyRequestCount
    ensures AfterChats(s, replies, moments).lastRequestDate == s.lastRequestDate
    ensures AfterChats(s, replies, moments).lastIp == s.lastIp
    decreases |replies|
  {
    if |replies| > 0 {
      var reply := replies[0];
      var cost := O1Client.CalculateCost(reply.usage.promptTokens, reply.usage.completionTokens);
      ChatsAccumulate(AfterUsage(s, reply.usage.totalTokens, cost, None, moments[0]), replies[1..], moments[1..]);
    }
  }

  /** One more chat at the end of a run is one more `update_usage` on the ledger
      the run left. */
  lemma {:induction false} AfterChatsSnoc(s: LedgerState, replies: seq<O1Client.Completion>, moments: seq<Moment>,
                                          reply: O1Client.Completion, moment: Moment)
    requires |moments| == |replies|
    ensures AfterChats(s, replies + [reply], moments + [moment])
         == AfterUsage(AfterChats(s, replies, moments), reply.usage.totalTokens,
                       O1Client.CalculateCost(reply.usage.promptTokens, reply.usage.completionTokens),
                       None, moment)
    decreases |replies|
  {
    if |replies| > 0 {
      var first := replies[0];
      var cost := O1Client.CalculateCost(first.usage.promptTokens, first.usage.completionTokens);
      AfterChatsSnoc(AfterUsage(s, first.usage.totalTokens, cost, None, moments[0]),
                     replies[1..], moments[1..], reply, moment);
      assert (replies + [reply])[1..] == replies[1..] + [reply];
      assert (moments + [moment])[1..] == moments[1..] + [moment];
    }
  }

  /** A run of `chat` requests with the same key, request `i` answered by
      `replies[i]` at `moments[i]`: the key holder's ledger ends as `AfterChats`
      of its old one, so `ChatsAccumulate` applies, and every other user is
      unchanged. */
  method ChatRun(table: UserTable, apiKey: string, replies: seq<O1Client.Completion>,
                 moments: seq<Moment>, thinkingTime: real)
    returns (responses: seq<Result<ChatResponse, HttpError>>)
    requires table.Valid() && |moments| == |replies|
    modifies table.users
    ensures |responses| == |replies|
    ensures forall i :: 0 <= i < |responses| ==> (responses[i].Failure? <==> !table.HasToken(apiKey))
    ensures forall u :: u in table.users ==>
      u.State() == if u.token == apiKey then AfterChats(old(u.State()), replies, moments) else old(u.State())
  {
    responses := [];
    for k := 0 to |replies|
      invariant |responses| == k
      invariant forall i :: 0 <= i < k ==> (responses[i].Failure? <==> !table.HasToken(apiKey))
      invariant forall u :: u in table.users ==>
        u.State() == if u.token == apiKey then AfterChats(old(u.State()), replies[..k], moments[..k])
                     else old(u.State())
    {
      var r := Chat(table, apiKey, replies[k], thinkingTime, moments[k]);
      responses := responses + [r];
      assert replies[..k + 1] == replies[..k] + [replies[k]];
      assert moments[..k + 1] == moments[..k] + [moments[k]];
      forall u | u in table.users && u.token == apiKey
        ensures u.State() == AfterChats(old(u.State()), replies[..k + 1], moments[..k + 1])
      {
        AfterChatsSnoc(old(u.State()), replies[..k], moments[..k], replies[k], moments[k]);
      }
    }
    assert replies[..|replies|] == replies;
    assert moments[..|moments|] == moments;
  }
}
