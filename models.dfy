/** The per-user usage ledger, its admission rules, and the `users` table. */
module Models {
  import opened Wrappers

  /** Ceiling on the number of requests a user may make per calendar day. */
  const DailyRequestLimit: int := 100
  /** Usage limit in USD that a new record receives unless told otherwise. */
  const DefaultUsageLimit: real := 1000.0

  /** A point in time: its calendar day and a timestamp within the timeline.
      Two moments fall on the same calendar date exactly when their days agree. */
  datatype Moment = Moment(day: int, stamp: int)

  /** The mutable columns of a user record, as one value. */
  datatype LedgerState = LedgerState(
    isActive: bool,
    totalTokens: int,
    totalCost: real,
    usageLimit: real,
    lastUsedAt: Moment,
    lastIp: Option<string>,
    dailyRequestCount: int,
    lastRequestDate: Option<Moment>)

  /** Why `check_limits` lets a request through or refuses it. The refusal texts are
      "User account is inactive", "Usage limit ($<limit>) exceeded" and
      "Daily request limit (100) exceeded"; admission reads "OK". */
  datatype Reason = Ok | Inactive | UsageLimitExceeded(limit: real) | DailyLimitExceeded

  /** The names of the mapped columns of the `users` table. An attribute of a
      user record by any other name is not stored: reading it fails, and
      assigning it only decorates the in-memory object. */
  const Columns: set<string> := {"id", "name", "token", "is_active", "total_tokens",
    "total_cost", "created_at", "last_used_at", "last_ip", "daily_request_count",
    "last_request_date", "usage_limit"}

  /** The integer columns besides the primary key. */
  const CountColumns: set<string> := {"total_tokens", "daily_request_count"}

  /** Attribute names the model reads and assigns integers by: the integer
      columns, and every name that is not a column at all. */
  predicate CountOrUnmapped(attribute: string)
  {
    attribute in CountColumns || attribute !in Columns
  }

  /** The ledger after assigning the integer `n` to the attribute `attribute`
      of the record: an integer column takes the value, an unmapped name
      leaves every column as it was. */
  function AssignedCount(s: LedgerState, attribute: string, n: int): LedgerState
    requires CountOrUnmapped(attribute)
  {
    if attribute == "total_tokens" then s.(totalTokens := n)
    else if attribute == "daily_request_count" then s.(dailyRequestCount := n)
    else s
  }

  /** Assigning to a name outside the mapped columns changes no column. */
  lemma AssignUnmappedKeepsColumns(s: LedgerState, attribute: string, n: int)
    requires attribute !in Columns
    ensures AssignedCount(s, attribute, n) == s
  {
  }

  /** The column defaults a freshly inserted record receives. */
  function NewLedger(usageLimit: real, now: Moment): (s: LedgerState)
  {
    LedgerState(true, 0, 0.0, usageLimit, now, None, 0, None)
  }

  /** Python truthiness of the optional address: absent and empty are both false. */
  predicate IpGiven(ip: Option<string>)
  {
    ip.Some? && ip.value != ""
  }

  /** The ledger after `update_usage(tokens, cost, ip)` at time `now`. */
  function AfterUsage(s: LedgerState, tokens: int, cost: real, ip: Option<string>, now: Moment): LedgerState
  {
    s.(totalTokens := s.totalTokens + tokens,
       totalCost := s.totalCost + cost,
       lastUsedAt := now,
       lastIp := if IpGiven(ip) then ip else s.lastIp)
  }

  /** The daily counter starts over when no request was recorded yet or the
      last one fell on another calendar day. */
  predicate IsNewDay(s: LedgerState, now: Moment)
  {
    s.lastRequestDate.None? || s.lastRequestDate.value.day != now.day
  }

  /** The ledger after `update_request_count` at time `now`: reset on a new day, then count one. */
  function AfterRequestCount(s: LedgerState, now: Moment): LedgerState
  {
    var base := if IsNewDay(s, now) then s.(dailyRequestCount := 0, lastRequestDate := Some(now)) else s;
    base.(dailyRequestCount := base.dailyRequestCount + 1)
  }

  predicate WithinDailyLimit(s: LedgerState)
  {
    s.dailyRequestCount <= DailyRequestLimit
  }

  /** The verdict of `check_limits`: inactive first, then quota, then the daily rate. */
  function LimitVerdict(s: LedgerState, now: Moment): Reason
  {
    if !s.isActive then Inactive
    else if s.totalCost >= s.usageLimit then UsageLimitExceeded(s.usageLimit)
    else if !WithinDailyLimit(AfterRequestCount(s, now)) then DailyLimitExceeded
    else Ok
  }

  /** The ledger after `check_limits`: the rate step counts the request even when
      it then refuses; the two earlier refusals change nothing. */
  function AfterCheckLimits(s: LedgerState, now: Moment): LedgerState
  {
    if !s.isActive || s.totalCost >= s.usageLimit then s else AfterRequestCount(s, now)
  }

  /** One registered client. `name` and `token` are never reassigned after creation. */
  class User {
    const name: string
    const token: string
    var isActive: bool
    var totalTokens: int
    var totalCost: real
    var usageLimit: real
    var lastUsedAt: Moment
    var lastIp: Option<string>
    var dailyRequestCount: int
    var lastRequestDate: Option<Moment>

    function State(): LedgerState
      reads this
    {
      LedgerState(isActive, totalTokens, totalCost, usageLimit, lastUsedAt, lastIp,
                  dailyRequestCount, lastRequestDate)
    }

    /** A record as inserted: column defaults plus the given name, token and limit. */
    constructor (name: string, token: string, usageLimit: real, now: Moment)
      ensures this.name == name && this.token == token
      ensures State() == NewLedger(usageLimit, now)
    {
      this.name := name;
      this.token := token;
      isActive := true;
      totalTokens := 0;
      totalCost := 0.0;
      this.usageLimit := usageLimit;
      lastUsedAt := now;
      lastIp := None;
      dailyRequestCount := 0;
      lastRequestDate := None;
    }

    /** Reading the integer attribute `attribute`: the column's value, or an
        attribute error exactly when the name is not a column. */
    function ReadCount(attribute: string): (r: Result<Option<int>, string>)
      requires CountOrUnmapped(attribute)
      reads this
      ensures r.Failure? <==> attribute !in Columns
      ensures r.Failure? ==> r.error == "AttributeError: " + attribute
      ensures attribute == "daily_request_count" ==> r == Success(Some(dailyRequestCount))
    {
      if attribute == "total_tokens" then Success(Some(totalTokens))
      else if attribute == "daily_request_count" then Success(Some(dailyRequestCount))
      else Failure("AttributeError: " + attribute)
    }

    /** Assigning the integer `n` to the attribute `attribute`. A name that is
        not a column becomes an attribute of the in-memory object only, which
        is never written back and is not part of the ledger. */
    method AssignCount(attribute: string, n: int)
      requires CountOrUnmapped(attribute)
      modifies this
      ensures State() == AssignedCount(old(State()), attribute, n)
    {
      if attribute == "total_tokens" {
        totalTokens := n;
      } else if attribute == "daily_request_count" {
        dailyRequestCount := n;
      }
    }

    method UpdateUsage(tokens: int, cost: real, ip: Option<string>, now: Moment)
      modifies this
      ensures State() == AfterUsage(old(State()), tokens, cost, ip, now)
    {
      totalTokens := totalTokens + tokens;
      totalCost := totalCost + cost;
      lastUsedAt := now;
      if IpGiven(ip) {
        lastIp := ip;
      }
    }

    /** Returns whether the request just counted stays within the daily ceiling. */
    method UpdateRequestCount(now: Moment) returns (withinLimit: bool)
      modifies this
      ensures State() == AfterRequestCount(old(State()), now)
      ensures withinLimit == WithinDailyLimit(State())
    {
      if IsNewDay(State(), now) {
        dailyRequestCount := 0;
        lastRequestDate := Some(now);
      }
      dailyRequestCount := dailyRequestCount + 1;
      withinLimit := dailyRequestCount <= DailyRequestLimit;
    }

    method CheckLimits(now: Moment) returns (canProceed: bool, reason: Reason)
      modifies this
      ensures reason == LimitVerdict(old(State()), now)
      ensures canProceed == reason.Ok?
      ensures State() == AfterCheckLimits(old(State()), now)
    {
      if !isActive {
        return false, Inactive;
      }
      if totalCost >= usageLimit {
        return false, UsageLimitExceeded(usageLimit);
      }
      var withinLimit := UpdateRequestCount(now);
      if !withinLimit {
        return false, DailyLimitExceeded;
      }
      return true, Ok;
    }
  }

  /** The position of the first user holding `token`, as the table query's `.first()`. */
  function IndexOfToken(users: seq<User>, token: string): (r: Option<nat>)
    ensures r.Some? ==> r.value < |users| && users[r.value].token == token
    ensures r.Some? ==> forall j :: 0 <= j < r.value ==> users[j].token != token
    ensures r.None? <==> forall j :: 0 <= j < |users| ==> users[j].token != token
  {
    if |users| == 0 then None
    else if users[0].token == token then Some(0)
    else match IndexOfToken(users[1..], token)
      case None => None
      case Some(k) => Some(k + 1)
  }

  /** The `users` table: every record, queried by token. */
  class UserTable {
    var users: seq<User>

    /** Tokens are unique across the table (the column's unique constraint). */
    ghost predicate Valid()
      reads this
    {
      forall i, j :: 0 <= i < j < |users| ==> users[i].token != users[j].token
    }

    constructor ()
      ensures users == [] && Valid()
    {
      users := [];
    }

    predicate HasToken(token: string)
      reads this
    {
      exists i :: 0 <= i < |users| && users[i].token == token
    }

    function Find(token: string): (r: Option<nat>)
      reads this
      ensures r.None? <==> !HasToken(token)
      ensures r.Some? ==> r.value < |users| && users[r.value].token == token
    {
      IndexOfToken(users, token)
    }
  }

  /** A user record that holds `token` in a table with unique tokens is the one `Find` returns. */
  lemma FoundIsUnique(table: UserTable, token: string, u: User)
    requires table.Valid() && u in table.users && u.token == token
    ensures table.Find(token).Some? && table.users[table.Find(token).value] == u
  {
  }

  /** Several `update_request_count` calls in a row. */
  function AfterRequests(s: LedgerState, calls: seq<Moment>): LedgerState
    decreases |calls|
  {
    if |calls| == 0 then s else AfterRequests(AfterRequestCount(s, calls[0]), calls[1..])
  }

  lemma InactiveIsRejected(s: LedgerState, now: Moment)
    requires !s.isActive
    ensures LimitVerdict(s, now) == Inactive
    ensures AfterCheckLimits(s, now) == s
  {
  }

  /** Spending that has reached the limit, equality included, is refused without counting. */
  lemma QuotaIsRejected(s: LedgerState, now: Moment)
    requires s.isActive && s.totalCost >= s.usageLimit
    ensures LimitVerdict(s, now) == UsageLimitExceeded(s.usageLimit)
    ensures AfterCheckLimits(s, now) == s
  {
  }

  lemma AdmittedIff(s: LedgerState, now: Moment)
    ensures LimitVerdict(s, now) == Ok <==>
      s.isActive && s.totalCost < s.usageLimit &&
      AfterRequestCount(s, now).dailyRequestCount <= DailyRequestLimit
  {
  }

  /** A rate refusal still leaves the request counted. */
  lemma RateRejectionCounts(s: LedgerState, now: Moment)
    requires LimitVerdict(s, now) == DailyLimitExceeded
    ensures AfterCheckLimits(s, now) == AfterRequestCount(s, now)
    ensures AfterCheckLimits(s, now).dailyRequestCount > DailyRequestLimit
  {
  }

  /** `check_limits` leaves the tokens, money and activity columns alone. */
  lemma CheckLimitsKeepsAccount(s: LedgerState, now: Moment)
    ensures AfterCheckLimits(s, now).totalTokens == s.totalTokens
    ensures AfterCheckLimits(s, now).totalCost == s.totalCost
    ensures AfterCheckLimits(s, now).usageLimit == s.usageLimit
    ensures AfterCheckLimits(s, now).isActive == s.isActive
    ensures AfterCheckLimits(s, now).lastUsedAt == s.lastUsedAt
    ensures AfterCheckLimits(s, now).lastIp == s.lastIp
  {
  }

  /** `update_usage` adds to both totals (which then never decrease for
      non-negative inputs), stamps the time, records the address only when
      one is given, and touches nothing else. */
  lemma UsageAccumulates(s: LedgerState, tokens: int, cost: real, ip: Option<string>, now: Moment)
    ensures AfterUsage(s, tokens, cost, ip, now).totalTokens == s.totalTokens + tokens
    ensures AfterUsage(s, tokens, cost, ip, now).totalCost == s.totalCost + cost
    ensures 0 <= tokens && 0.0 <= cost ==>
      AfterUsage(s, tokens, cost, ip, now).totalTokens >= s.totalTokens &&
      AfterUsage(s, tokens, cost, ip, now).totalCost >= s.totalCost
    ensures AfterUsage(s, tokens, cost, ip, now).lastUsedAt == now
    ensures AfterUsage(s, tokens, cost, ip, now).lastIp == (if IpGiven(ip) then ip else s.lastIp)
    ensures AfterUsage(s, tokens, cost, ip, now).(totalTokens := s.totalTokens, totalCost := s.totalCost,
                                                 lastUsedAt := s.lastUsedAt, lastIp := s.lastIp) == s
  {
  }

  /** On a new day the counter restarts: the first call of the day ends at exactly 1. */
  lemma NewDayCountsOne(s: LedgerState, now: Moment)
    requires IsNewDay(s, now)
    ensures AfterRequestCount(s, now).dailyRequestCount == 1
    ensures AfterRequestCount(s, now).lastRequestDate == Some(now)
    ensures WithinDailyLimit(AfterRequestCount(s, now))
  {
  }

  /** Within the same day the counter goes up by one and the date is kept. */
  lemma SameDayCountsOnward(s: LedgerState, now: Moment)
    requires !IsNewDay(s, now)
    ensures AfterRequestCount(s, now).dailyRequestCount == s.dailyRequestCount + 1
    ensures AfterRequestCount(s, now).lastRequestDate == s.lastRequestDate
  {
  }

  /** A user at the ceiling yesterday is admitted on the next request, and the
      counter then reads 1. */
  lemma NewDayReadmits(s: LedgerState, now: Moment)
    requires s.isActive && s.totalCost < s.usageLimit && IsNewDay(s, now)
    ensures LimitVerdict(s, now) == Ok
    ensures AfterCheckLimits(s, now).dailyRequestCount == 1
  {
  }

  /** Calls made on the day of the recorded date only add to the counter. */
  lemma {:induction false} SameDayRun(s: LedgerState, calls: seq<Moment>)
    requires s.lastRequestDate.Some?
    requires forall k :: 0 <= k < |calls| ==> calls[k].day == s.lastRequestDate.value.day
    ensures AfterRequests(s, calls).dailyRequestCount == s.dailyRequestCount + |calls|
    ensures AfterRequests(s, calls).lastRequestDate == s.lastRequestDate
    decreases |calls|
  {
    if |calls| > 0 {
      var next := AfterRequestCount(s, calls[0]);
      assert next.dailyRequestCount == s.dailyRequestCount + 1 && next.lastRequestDate == s.lastRequestDate;
      SameDayRun(next, calls[1..]);
    }
  }

  /** After the first `n` calls of a calendar day the counter reads exactly `n`,
      and the last of them is within the ceiling exactly when `n <= 100`:
      the 100th call of a day is admitted and the 101st refused. */
  lemma {:induction false} DailyCeiling(s: LedgerState, calls: seq<Moment>)
    requires |calls| > 0 && IsNewDay(s, calls[0])
    requires forall k :: 0 <= k < |calls| ==> calls[k].day == calls[0].day
    ensures AfterRequests(s, calls).dailyRequestCount == |calls|
    ensures AfterRequests(s, calls).lastRequestDate == Some(calls[0])
    ensures WithinDailyLimit(AfterRequests(s, calls)) <==> |calls| <= DailyRequestLimit
  {
    var first := AfterRequestCount(s, calls[0]);
    assert first.dailyRequestCount == 1 && first.lastRequestDate == Some(calls[0]);
    SameDayRun(first, calls[1..]);
  }
}
