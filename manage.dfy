/** The administrative commands on the `users` table: create a user with a
    fresh token, list, toggle, reset the request count, raise the limit. */
module Manage {
  import opened Wrappers
  import opened Models

  /** Lower-case ASCII letters followed by the decimal digits. */
  const Alphabet: string := "abcdefghijklmnopqrstuvwxyz0123456789"
  const TokenLength: nat := 8

  /** A lower-case ASCII letter or a decimal digit. */
  predicate IsTokenChar(c: char)
  {
    'a' <= c <= 'z' || '0' <= c <= '9'
  }

  /** `t` has `length` characters, each a lower-case letter or a digit. */
  predicate IsToken(t: string, length: nat)
  {
    |t| == length && forall i :: 0 <= i < |t| ==> IsTokenChar(t[i])
  }

  /** The alphabet holds exactly the lower-case letters and the digits. */
  lemma AlphabetIsLowercaseAndDigits(c: char)
    ensures c in Alphabet <==> IsTokenChar(c)
  {
  }

  /** `generate_token`: `length` independent choices from the alphabet. Which
      character each choice yields is left open. */
  method GenerateToken(length: nat := TokenLength) returns (token: string)
    ensures IsToken(token, length)
  {
    token := "";
    for k := 0 to length
      invariant |token| == k
      invariant forall i :: 0 <= i < k ==> IsTokenChar(token[i])
    {
      assert Alphabet[0] in Alphabet;
      var c :| c in Alphabet;
      AlphabetIsLowercaseAndDigits(c);
      token := token + [c];
    }
  }

  /** `create_user`: draw tokens until one no user holds, then insert a record
      with that token. `draws` is the stream of tokens the generator produces,
      one per attempt; `attempts` is the index of the draw that was kept. Each
      draw has the form `GenerateToken` ensures for the default length. */
  method CreateUser(table: UserTable, name: string, draws: seq<string>, now: Moment,
                    usageLimit: real := DefaultUsageLimit)
    returns (user: User, attempts: nat)
    requires table.Valid()
    requires forall k :: 0 <= k < |draws| ==> IsToken(draws[k], TokenLength)
    requires exists k :: 0 <= k < |draws| && !table.HasToken(draws[k])
    modifies table
    ensures table.Valid() && fresh(user)
    ensures table.users == old(table.users) + [user]
    ensures attempts < |draws| && user.token == draws[attempts]
    ensures forall k :: 0 <= k < attempts ==> old(table.HasToken(draws[k]))
    ensures !old(table.HasToken(draws[attempts])) && IsToken(user.token, TokenLength)
    ensures user.name == name && user.State() == NewLedger(usageLimit, now)
  {
    attempts := 0;
    while table.Find(draws[attempts]).Some?
      invariant attempts < |draws|
      invariant forall k :: 0 <= k < attempts ==> table.HasToken(draws[k])
      invariant exists k :: attempts <= k < |draws| && !table.HasToken(draws[k])
      decreases |draws| - attempts
    {
      ghost var freshDraw :| attempts <= freshDraw < |draws| && !table.HasToken(draws[freshDraw]);
      assert table.HasToken(draws[attempts]) && freshDraw != attempts;
      attempts := attempts + 1;
    }
    user := new User(name, draws[attempts], usageLimit, now);
    table.users := table.users + [user];
  }

  function Toggled(s: LedgerState): LedgerState
  {
    s.(isActive := !s.isActive)
  }

  /** Toggling flips the active flag and nothing else; toggling twice restores the record. */
  lemma ToggleTwiceRestores(s: LedgerState)
    ensures Toggled(s).isActive == !s.isActive
    ensures Toggled(s).(isActive := s.isActive) == s
    ensures Toggled(Toggled(s)) == s
  {
  }

  /** `toggle_user`: negate the matching user's active flag; an unknown token changes nothing. */
  method ToggleUser(table: UserTable, token: string) returns (found: bool)
    requires table.Valid()
    modifies table.users
    ensures found == table.HasToken(token)
    ensures forall u :: u in table.users ==>
      u.State() == if u.token == token then Toggled(old(u.State())) else old(u.State())
  {
    var index := table.Find(token);
    if index.None? {
      return false;
    }
    var user := table.users[index.value];
    user.isActive := !user.isActive;
    found := true;
    forall u | u in table.users && u.token == token
      ensures u == user
    {
      FoundIsUnique(table, token, u);
    }
  }

  /** The effect `reset_limits` evidently intends: the daily request counter back to zero. */
  function ResetRequestCount(s: LedgerState): LedgerState
  {
    s.(dailyRequestCount := 0)
  }

  /** `reset_limits` as written: it assigns zero to `request_count`, which is not
      a column of the user record, so the commit stores nothing new. */
  method ResetLimitsAsWritten(table: UserTable, token: string) returns (found: bool)
    requires table.Valid()
    modifies table.users
    ensures found == table.HasToken(token)
    ensures forall u :: u in table.users ==>
      u.State() == if u.token == token then AssignedCount(old(u.State()), "request_count", 0) else old(u.State())
  {
    var index := table.Find(token);
    if index.None? {
      return false;
    }
    var user := table.users[index.value];
    user.AssignCount("request_count", 0);
    found := true;
    forall u | u in table.users && u.token == token
      ensures u == user
    {
      FoundIsUnique(table, token, u);
    }
  }

  /** The reset as written changes no column, because `request_count` is not one;
      the corrected reset assigns the daily counter. */
  lemma ResetAttributes(s: LedgerState)
    ensures AssignedCount(s, "request_count", 0) == s
    ensures AssignedCount(s, "daily_request_count", 0) == ResetRequestCount(s)
  {
  }

  /** `reset_limits` corrected: the matching user's daily counter is set to zero,
      nothing else changes; an unknown token changes nothing. */
  method ResetLimits(table: UserTable, token: string) returns (found: bool)
    requires table.Valid()
    modifies table.users
    ensures found == table.HasToken(token)
    ensures forall u :: u in table.users ==>
      u.State() == if u.token == token then ResetRequestCount(old(u.State())) else old(u.State())
  {
    var index := table.Find(token);
    if index.None? {
      return false;
    }
    var user := table.users[index.value];
    user.AssignCount("daily_request_count", 0);
    found := true;
    forall u | u in table.users && u.token == token
      ensures u == user
    {
      FoundIsUnique(table, token, u);
    }
  }

  /** An active user under quota who reached the daily ceiling today stays refused
      after the reset as written, but is admitted after the corrected reset. */
  lemma ResetAsWrittenKeepsUserLimited(s: LedgerState, now: Moment)
    requires s.isActive && s.totalCost < s.usageLimit
    requires !IsNewDay(s, now) && s.dailyRequestCount >= DailyRequestLimit
    ensures LimitVerdict(AssignedCount(s, "request_count", 0), now) == DailyLimitExceeded
    ensures LimitVerdict(AssignedCount(s, "daily_request_count", 0), now) == Ok
  {
  }

  /** A user admitted for the first time on `day` makes requests until the daily
      ceiling is reached; every one of them is admitted. */
  method UseUpDay(user: User, day: int) returns (allAdmitted: bool)
    requires user.isActive && user.totalCost < user.usageLimit && user.lastRequestDate.None?
    modifies user
    ensures allAdmitted
    ensures user.State() == old(user.State()).(dailyRequestCount := DailyRequestLimit,
                                                lastRequestDate := Some(Moment(day, 0)))
  {
    allAdmitted := true;
    for k := 0 to DailyRequestLimit
      invariant allAdmitted
      invariant user.State() == if k == 0 then old(user.State())
        else old(user.State()).(dailyRequestCount := k, lastRequestDate := Some(Moment(day, 0)))
    {
      var canProceed, reason := user.CheckLimits(Moment(day, k));
      allAdmitted := allAdmitted && canProceed;
    }
  }

  /** A new user makes 100 requests on day 1, the administrator runs the reset as
      written, and the next request that day is still refused for the daily rate. */
  method ResetAsWrittenScenario() returns (canProceed: bool, reason: Reason)
    ensures !canProceed && reason == DailyLimitExceeded
  {
    var table := new UserTable();
    assert !table.HasToken(["abcd1234"][0]);
    var user, attempts := CreateUser(table, "alice", ["abcd1234"], Moment(1, 0));
    var allAdmitted := UseUpDay(user, 1);
    var found := ResetLimitsAsWritten(table, user.token);
    canProceed, reason := user.CheckLimits(Moment(1, 500));
  }

  /** The same day with the corrected reset: the next request is admitted. */
  method ResetScenario() returns (canProceed: bool, reason: Reason)
    ensures canProceed && reason == Ok
  {
    var table := new UserTable();
    assert !table.HasToken(["abcd1234"][0]);
    var user, attempts := CreateUser(table, "alice", ["abcd1234"], Moment(1, 0));
    var allAdmitted := UseUpDay(user, 1);
    var found := ResetLimits(table, user.token);
    canProceed, reason := user.CheckLimits(Moment(1, 500));
  }

  /** After the corrected reset an active user under quota is admitted, whatever the day. */
  lemma ResetReadmits(s: LedgerState, now: Moment)
    requires s.isActive && s.totalCost < s.usageLimit
    ensures LimitVerdict(ResetRequestCount(s), now) == Ok
    ensures AfterCheckLimits(ResetRequestCount(s), now).dailyRequestCount == 1
  {
  }

  /** Budget left before the usage limit is reached. */
  function Remaining(s: LedgerState): real
  {
    s.usageLimit - s.totalCost
  }

  function RaiseLimit(s: LedgerState, amount: real): LedgerState
  {
    s.(usageLimit := s.usageLimit + amount)
  }

  /** Raising the limit adds `amount` to the limit and to the remaining budget,
      and leaves the spending and every other column as they were. */
  lemma RaiseLimitRemaining(s: LedgerState, amount: real)
    ensures RaiseLimit(s, amount).usageLimit == s.usageLimit + amount
    ensures RaiseLimit(s, amount).totalCost == s.totalCost
    ensures Remaining(RaiseLimit(s, amount)) == Remaining(s) + amount
    ensures RaiseLimit(s, amount).(usageLimit := s.usageLimit) == s
  {
  }

  /** `add_limit`: raise the matching user's limit by `amount` and report the
      remaining budget; an unknown token changes nothing and reports nothing. */
  method AddLimit(table: UserTable, token: string, amount: real) returns (remaining: Option<real>)
    requires table.Valid()
    modifies table.users
    ensures remaining.Some? == table.HasToken(token)
    ensures forall u :: u in table.users ==>
      u.State() == if u.token == token then RaiseLimit(old(u.State()), amount) else old(u.State())
    ensures forall u :: u in table.users && u.token == token ==> remaining == Some(Remaining(u.State()))
  {
    var index := table.Find(token);
    if index.None? {
      return None;
    }
    var user := table.users[index.value];
    user.usageLimit := user.usageLimit + amount;
    remaining := Some(user.usageLimit - user.totalCost);
    forall u | u in table.users && u.token == token
      ensures u == user
    {
      FoundIsUnique(table, token, u);
    }
  }

  function DigitChar(d: nat): char
    requires d < 10
  {
    ('0' as int + d) as char
  }

  /** Decimal rendering of a natural number, without leading zeros. */
  function NatToString(n: nat): string
    decreases n
  {
    if n < 10 then [DigitChar(n)] else NatToString(n / 10) + [DigitChar(n % 10)]
  }

  predicate IsDigits(s: string)
  {
    forall i :: 0 <= i < |s| ==> '0' <= s[i] <= '9'
  }

  /** The value of a string of decimal digits. */
  function DigitsValue(s: string): nat
    requires IsDigits(s)
  {
    if |s| == 0 then 0 else DigitsValue(s[..|s| - 1]) * 10 + (s[|s| - 1] as int - '0' as int)
  }

  lemma {:induction false} NatToStringRoundTrip(n: nat)
    ensures |NatToString(n)| > 0 && IsDigits(NatToString(n))
    ensures DigitsValue(NatToString(n)) == n
    decreases n
  {
    if n >= 10 {
      NatToStringRoundTrip(n / 10);
      var s := NatToString(n);
      assert s[..|s| - 1] == NatToString(n / 10);
    }
  }

  /** Python's `str` of an integer. */
  function IntToString(n: int): string
  {
    if n < 0 then "-" + NatToString(-n) else NatToString(n)
  }

  /** The "Requests" column: the count over the daily ceiling, "0/100" when there is no count. */
  function RequestsColumn(count: Option<int>): string
  {
    match count
    case Some(n) => IntToString(n) + "/100"
    case None => "0/100"
  }

  lemma RequestsColumnShape(count: Option<int>)
    ensures RequestsColumn(None) == RequestsColumn(Some(0)) == "0/100"
    ensures count.Some? ==> RequestsColumn(count) == IntToString(count.value) + "/100"
    ensures |RequestsColumn(count)| >= 5
    ensures RequestsColumn(count)[|RequestsColumn(count)| - 4..] == "/100"
  {
  }

  datatype UserRow = UserRow(
    name: string,
    token: string,
    totalCost: real,
    usageLimit: real,
    remaining: real,
    requests: string,
    status: string,
    lastUsed: Moment)

  /** The "Status" column. */
  function StatusColumn(isActive: bool): string
  {
    if isActive then "Active" else "Inactive"
  }

  /** One line of `list_users` for `u`, with the given "Requests" column. */
  function RowWith(u: User, requests: string): UserRow
    reads u
  {
    UserRow(u.name, u.token, u.totalCost, u.usageLimit, Remaining(u.State()),
            requests, StatusColumn(u.isActive), u.lastUsedAt)
  }

  /** One line of `list_users`, reading the daily counter for the "Requests" column. */
  function RowOf(u: User): (row: UserRow)
    reads u
    ensures row.name == u.name && row.token == u.token
    ensures row.remaining == u.usageLimit - u.totalCost
    ensures row.requests == IntToString(u.dailyRequestCount) + "/100"
    ensures row.status == if u.isActive then "Active" else "Inactive"
  {
    RowWith(u, RequestsColumn(Some(u.dailyRequestCount)))
  }

  /** The line `list_users` builds for `u` when its "Requests" column reads the
      attribute `countAttribute`; the read fails for a name that is not a column. */
  function ListRow(u: User, countAttribute: string): (r: Result<UserRow, string>)
    requires CountOrUnmapped(countAttribute)
    reads u
    ensures r.Failure? <==> countAttribute !in Columns
    ensures r.Failure? ==> r.error == "AttributeError: " + countAttribute
  {
    match u.ReadCount(countAttribute)
    case Failure(e) => Failure(e)
    case Success(count) => Success(RowWith(u, RequestsColumn(count)))
  }

  /** Reading the daily counter, the line is the corrected row. */
  lemma ListRowReadsCounter(u: User)
    ensures ListRow(u, "daily_request_count") == Success(RowOf(u))
  {
  }

  /** The lines for `users` in order; the first failing read ends the listing. */
  function ListRows(users: seq<User>, countAttribute: string): (r: Result<seq<UserRow>, string>)
    requires CountOrUnmapped(countAttribute)
    reads users
    ensures r.Success? ==> |r.value| == |users|
    ensures r.Success? ==> forall i :: 0 <= i < |users| ==> ListRow(users[i], countAttribute) == Success(r.value[i])
    decreases |users|
  {
    if |users| == 0 then Success([])
    else match ListRow(users[0], countAttribute)
      case Failure(e) => Failure(e)
      case Success(row) =>
        match ListRows(users[1..], countAttribute)
        case Failure(e) => Failure(e)
        case Success(rest) => Success([row] + rest)
  }

  /** `list_users` as written: the "Requests" column reads `request_count`. */
  function ListUsersAsWritten(table: UserTable): (r: Result<seq<UserRow>, string>)
    reads table, table.users
    ensures r.Success? ==> |r.value| == |table.users|
  {
    ListRows(table.users, "request_count")
  }

  /** Since `request_count` is not a column, any non-empty table raises an
      attribute error before the first line is printed. */
  lemma ListUsersAsWrittenFails(table: UserTable)
    requires |table.users| > 0
    ensures ListUsersAsWritten(table) == Failure("AttributeError: request_count")
  {
    assert "AttributeError: " + "request_count" == "AttributeError: request_count";
  }

  /** The listing that reads the daily counter succeeds with the corrected rows. */
  lemma {:induction false} ListRowsReadsCounter(users: seq<User>, rows: seq<UserRow>)
    requires |rows| == |users|
    requires forall i :: 0 <= i < |users| ==> rows[i] == RowOf(users[i])
    ensures ListRows(users, "daily_request_count") == Success(rows)
    decreases |users|
  {
    if |users| > 0 {
      ListRowReadsCounter(users[0]);
      ListRowsReadsCounter(users[1..], rows[1..]);
      assert rows == [rows[0]] + rows[1..];
    }
  }

  /** `list_users` corrected: one row per user, in table order: remaining budget
      is limit minus spending, requests read the daily counter. It is the listing
      as written with `daily_request_count` in place of `request_count`. */
  method ListUsers(table: UserTable) returns (rows: seq<UserRow>)
    ensures ListRows(table.users, "daily_request_count") == Success(rows)
    ensures |rows| == |table.users|
    ensures forall i :: 0 <= i < |rows| ==>
      rows[i] == RowOf(table.users[i]) &&
      rows[i].remaining == table.users[i].usageLimit - table.users[i].totalCost &&
      rows[i].requests == IntToString(table.users[i].dailyRequestCount) + "/100"
  {
    rows := [];
    var users := table.users;
    for i := 0 to |users|
      invariant |rows| == i
      invariant forall k :: 0 <= k < i ==> rows[k] == RowOf(users[k])
    {
      rows := rows + [RowOf(users[i])];
    }
    ListRowsReadsCounter(users, rows);
  }
}
