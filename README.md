# o1 chat proxy: usage ledger and admission rules

This project models the accounting core of a small proxy that forwards chat
requests to the o1 language model and tracks each user's spend.

- **The per-user ledger** (`models.py`). This is the `User` record with its token
  and spend counters. It has three operations: `update_usage` (add tokens and
  cost, stamp the time, record the address), `update_request_count` (a daily
  counter that resets on a new calendar day and is compared against a ceiling
  of 100) and
  `check_limits` (refuse an inactive user, then a user whose spend has reached
  the limit, then a user over the daily ceiling). The record is the Dafny class
  `Models.User`. Its methods change its fields in place. Each method's contract
  ties the new field values, read as one `LedgerState` value through
  `User.State()`, to a pure transition function. The lemmas are proved about
  those functions.
- **The cost calculator** (`o1_client.py`, and a copy in `test_o1.py`). It charges
  15 USD per million prompt tokens and 60 USD per million completion tokens. It
  also maps the upstream usage report to `TokenUsage` and to the response.
- **The admin commands** (`manage.py`). These are token generation, create with
  retry until the token is unique, toggling the active flag, resetting the request
  count, raising the limit, and the rows of the user listing. They work on
  `Models.UserTable`, a class that holds the sequence of `User` objects. Tokens in
  the table are unique, which is `UserTable.Valid()`.
- **The chat handler** (`main.py`). It looks up the user by key, or refuses with
  401. It applies `update_usage` with the reply's total tokens and cost, and
  returns the new cumulative cost. A read-only statistics lookup sits beside it.

Time is an explicit `Moment(day, stamp)`: two moments fall on the same calendar
date exactly when their `day` fields agree. Money is `real`, token counts are
`int`. The upstream reply (`O1Client.Completion`: the first choice's text and the
usage report) and the measured thinking time are inputs. The random token
generator is a nondeterministic choice from the alphabet. The retry loop of
`create_user` reads its candidates from a stream of draws given as a parameter.

A stricter policy would count a request only after a successful upstream call.
The code does not, and the model follows the code:
- `check_limits` increments the daily counter during the admission check, even
  when it then refuses (`models.py:41-44,54`). Nothing is counted after the call.
- `chat` performs no admission check at all (`main.py:46-66`).

The mapped columns of the user record are declared once, as `Models.Columns`
(`models.py:10-21`). Reading an integer attribute by name (`User.ReadCount`)
fails with an attribute error exactly for a name outside that set. Assigning one
(`User.AssignCount`) to such a name changes no column.

## Model

| member | source | states |
|---|---|---|
| `O1Client.CalculateCost` | o1_client.py:26-44 | one million prompt tokens cost 15, one million completion tokens cost 60 (cost × 10⁶ = 15·prompt + 60·completion); non-negative counts give a non-negative cost |
| `O1Client.CostBoundaries` | o1_client.py:37-44 | cost(1 000 000, 0) = 15, cost(0, 1 000 000) = 60, cost(0, 0) = 0 |
| `O1Client.CostAdditive` | o1_client.py:41-44 | pricing is additive: the cost of summed counts is the sum of the costs |
| `O1Client.CostMonotone` | o1_client.py:41-44 | more prompt or completion tokens never cost less |
| `O1Client.ToTokenUsage` | o1_client.py:70-76 | the total count is carried over, and the reasoning count is absent exactly when the report has no completion-token details |
| `O1Client.Query` | o1_client.py:70-86 | the response carries the reply text and the thinking time; cost × 10⁶ = 15·prompt + 60·completion of the reply's report |
| `O1Client.TokenUsageCopiesReport` | o1_client.py:70-76 | prompt, completion and total counts are copied unchanged; the reasoning count is absent exactly when the report has no completion-token details, and otherwise equals their reasoning count |
| `O1Client.QueryPricesPromptAndCompletion` | o1_client.py:78-86 | the response carries the reply text, the copied usage and the thinking time, and its cost is the price of its prompt and completion tokens |
| `O1Client.CostIgnoresTotalAndReasoning` | o1_client.py:79 | two replies with equal prompt and completion counts cost the same, whatever their total and reasoning counts |
| `O1Script.CalculateCost` | test_o1.py:19-37 | the script's pricing: cost × 10⁶ = 15·prompt + 60·completion |
| `O1Script.CostBoundaries` | test_o1.py:30-37 | cost(1 000 000, 0) = 15, cost(0, 1 000 000) = 60, cost(0, 0) = 0 |
| `O1Script.CostAgreesWithClient` | test_o1.py:19-37 | the script's pricing agrees with the client's on every input |
| `O1Script.QueryO1` | test_o1.py:58-74 | the response carries the reply text and the same usage record the client builds; cost × 10⁶ = 15·prompt + 60·completion |
| `O1Script.QueryO1AgreesWithClient` | test_o1.py:58-74 | `query_o1` prices prompt and completion tokens, copies the three counts, has no reasoning count exactly when details are absent, and matches the client's `query` on text, usage and cost |
| `Models.AssignUnmappedKeepsColumns` | models.py:10-21 | assigning to a name that is not one of the mapped columns leaves every column as it was |
| `Models.User.ReadCount` | models.py:10-21 | reading an integer attribute fails with "AttributeError: <name>" exactly when the name is not a mapped column; the daily counter reads as its value |
| `Models.User.AssignCount` | models.py:10-21 | the new ledger is `AssignedCount` of the old one: an integer column takes the value, any unmapped name changes nothing |
| `Models.User.constructor` | models.py:10-21 | a new record is active, has zero tokens, cost and daily count, no address and no request date, the given limit, and was last used at creation |
| `Models.User.UpdateUsage` | models.py:23-29 | the new ledger is `AfterUsage` of the old one: totals increased by the given tokens and cost, last use set to now, address replaced only when a non-empty one is given |
| `Models.User.UpdateRequestCount` | models.py:31-44 | the new ledger is `AfterRequestCount` of the old one (reset on a new day, then one more request); the result says whether the new count is at most 100 |
| `Models.User.CheckLimits` | models.py:46-57 | the verdict is `LimitVerdict` of the old ledger, proceeding exactly when it is `Ok`; the new ledger is `AfterCheckLimits`, counting the request only once the inactive and quota tests pass |
| `Models.IndexOfToken` | manage.py:69 | the index of the first user holding the token; absent exactly when no user holds it |
| `Models.UserTable.constructor` | models.py:8 | an empty table, whose tokens are trivially unique |
| `Models.UserTable.Find` | manage.py:87 | the lookup by token: absent exactly when no user holds the token, otherwise the position of a user holding it |
| `Models.FoundIsUnique` | models.py:12 | with unique tokens, a user holding the token is the very record the lookup returns |
| `Models.InactiveIsRejected` | models.py:48-49 | an inactive user is refused as inactive whatever the spend or count, and the ledger is left untouched |
| `Models.QuotaIsRejected` | models.py:51-52 | an active user whose spend has reached the limit, equality included, is refused with that limit and the counter is untouched |
| `Models.AdmittedIff` | models.py:46-57 | admitted exactly when active, spend below the limit, and the incremented daily count at most 100 |
| `Models.RateRejectionCounts` | models.py:54-55 | a daily-limit refusal still leaves the request counted, above 100 |
| `Models.CheckLimitsKeepsAccount` | models.py:46-57 | the admission check changes neither tokens, cost, limit, activity, last use nor address |
| `Models.UsageAccumulates` | models.py:23-29 | both totals grow by the given amounts and never decrease for non-negative inputs; last use becomes now; the address changes only when given; nothing else changes |
| `Models.NewDayCountsOne` | models.py:36-41 | with no recorded date or one on another day, the counter restarts: it ends at exactly 1 and the date becomes now |
| `Models.SameDayCountsOnward` | models.py:36-41 | on the recorded day the counter goes up by one and the date is kept |
| `Models.NewDayReadmits` | models.py:36-57 | an active user under quota is admitted on the first request of a new day, whatever yesterday's count, and the counter then reads 1 |
| `Models.SameDayRun` | models.py:36-44 | calls on the recorded day only add one each to the counter and keep the date |
| `Models.DailyCeiling` | models.py:31-44 | after the first n calls of a day the counter is exactly n and within the ceiling exactly when n ≤ 100: the 100th call passes and the 101st fails |
| `Manage.AlphabetIsLowercaseAndDigits` | manage.py:10 | a character is in the alphabet exactly when it is a lower-case letter or a digit |
| `Manage.GenerateToken` | manage.py:8-11 | the token has exactly the requested length (8 by default), each character a lower-case letter or digit |
| `Manage.CreateUser` | manage.py:13-30 | draws are tried in order until one no user holds, every earlier draw collided, and exactly one fresh record is appended with that token, the given name and limit (1000 by default) and the new-record defaults; tokens stay unique |
| `Manage.ToggleTwiceRestores` | manage.py:75 | toggling flips only the active flag, and toggling twice restores the record |
| `Manage.ToggleUser` | manage.py:65-79 | the matching user's active flag is negated, every other user is unchanged, and an unknown token changes nothing |
| `Manage.ResetLimitsAsWritten` | manage.py:83-96 | as written: reports whether the token is known; the matching user's ledger becomes the old one after assigning 0 to `request_count`, every other user is unchanged |
| `Manage.ResetAttributes` | manage.py:93 | assigning 0 to `request_count` leaves the ledger as it was, since it is not a column; assigning 0 to `daily_request_count` is the intended reset |
| `Manage.ResetLimits` | manage.py:83-96 | corrected: the matching user's daily count becomes 0 and nothing else changes; an unknown token changes nothing |
| `Manage.ResetAsWrittenKeepsUserLimited` | manage.py:93 | every active user under quota who has reached 100 requests today is still refused after the reset as written (no column changed), but admitted after the corrected reset |
| `Manage.UseUpDay` | models.py:46-57 | a new user makes 100 requests on one day and every one is admitted; the counter then reads 100 with that day's date, and nothing else changes |
| `Manage.ResetAsWrittenScenario` | manage.py:83-96 | a new user makes 100 requests on day 1, the reset as written runs, and the next request that day is refused for the daily rate |
| `Manage.ResetScenario` | manage.py:83-96 | the same day with the corrected reset: the next request is admitted |
| `Manage.ResetReadmits` | manage.py:93 | after the corrected reset an active user under quota is admitted and the counter reads 1 |
| `Manage.RaiseLimitRemaining` | manage.py:110-114 | the limit grows by the amount, spend is unchanged, and the remaining budget grows by the amount |
| `Manage.AddLimit` | manage.py:100-114 | the matching user's limit grows by the amount, nothing else changes, and the reported remaining budget is its new limit minus its cost; an unknown token changes nothing and reports nothing |
| `Manage.NatToStringRoundTrip` | manage.py:58 | the decimal rendering of the count is a non-empty digit string that reads back as the count |
| `Manage.RequestsColumnShape` | manage.py:58 | the requests column is the count followed by "/100", and "0/100" when there is no count |
| `Manage.RowOf` | manage.py:56-59 | a row carries the user's name and token, remaining = limit − cost, requests = daily count over 100, and status "Active" or "Inactive" by the flag |
| `Manage.ListRow` | manage.py:56-59 | a row whose requests column reads the given attribute fails, with that attribute's error, exactly when the attribute is not a column |
| `Manage.ListRowReadsCounter` | manage.py:58 | reading the daily counter, the row is the corrected `RowOf` |
| `Manage.ListRows` | manage.py:55-61 | a successful listing has one row per user, in order, each the row of that user |
| `Manage.ListUsersAsWritten` | manage.py:55-58 | as written: the listing reads `request_count`; when it succeeds it has one row per user |
| `Manage.ListUsersAsWrittenFails` | manage.py:58 | as written: the listing of any non-empty table fails with "AttributeError: request_count", because that name is not a column |
| `Manage.ListRowsReadsCounter` | manage.py:55-61 | the listing that reads the daily counter succeeds with exactly one corrected row per user, in order |
| `Manage.ListUsers` | manage.py:40-61 | corrected: the result is the listing as written with `daily_request_count` read instead of `request_count`; one row per user in table order, with remaining = limit − cost and requests = daily count over 100 |
| `Server.GetUser` | main.py:39-44 | the user whose token is the key, or a 401 "Invalid API key" refusal exactly when no user holds it |
| `Server.Chat` | main.py:46-66 | an unknown key is refused with 401 and changes nothing; otherwise only the matching user changes, by `update_usage` with the reply's total tokens and cost and no address; the response carries the reply text, its total tokens, its cost and the old cumulative cost plus this cost |
| `Server.GetUserStats` | main.py:68-78 | read-only: name, total tokens, total cost and last use of a user holding the key, or the 401 refusal |
| `Server.ChatsAccumulate` | main.py:58 | after N successful chats, each at its own moment, the totals have grown by exactly the sum of their costs and total tokens and the last use is the last chat's moment; activity, limit, daily count, its date and the address are untouched |
| `Server.AfterChatsSnoc` | main.py:58 | one more chat at the end of a run is one more `update_usage` on the ledger the run left |
| `Server.ChatRun` | main.py:46-66 | a run of chats with one key leaves the key holder's ledger at `AfterChats` of its old one and every other user unchanged; each response is a refusal exactly when no user holds the key |

## Findings

| source | as written | input that shows it | evidently intended | confidence | as-written member | corrected member |
|---|---|---|---|---|---|---|
| manage.py:93 | `reset_limits` assigns `user.request_count`, which models.py does not declare (the counter column is `daily_request_count`, models.py:19), so the commit changes no column | a user with 100 requests today runs the reset command; the next request on the same day is still refused | set `daily_request_count` to 0 | high; not executed | `Manage.ResetLimitsAsWritten`, `Manage.ResetAsWrittenScenario`, `Manage.ResetAsWrittenKeepsUserLimited` | `Manage.ResetLimits`, `Manage.ResetScenario`, `Manage.ResetReadmits` |
| manage.py:58 | `list_users` reads `user.request_count`, which the record does not have, so the first row raises `AttributeError` | a table with one user | read `daily_request_count` | high; not executed | `Manage.ListUsersAsWritten`, `Manage.ListUsersAsWrittenFails` | `Manage.ListUsers`, `Manage.ListRowsReadsCounter`, `Manage.RequestsColumnShape` |

## Left out

- Persistence is left out: the SQLAlchemy engine, sessions, `commit` and `close`. So is `database.py` and the auto-incremented `id` and `created_at` columns. The database's `onupdate=func.now()` on `last_used_at` (which also stamps it on admin updates) is left out too.
- Network calls are left out: the upstream call in `query`/`query_o1` and its wall-clock timing. The reply and the thinking time are parameters. The messages list, the reasoning-effort argument and the model name are forwarded unchanged and are not modelled.
- FastAPI, CORS, Pydantic, uvicorn and the missing `await` on `o1_client.query` (main.py:55) are left out.
- main.py:10 imports `create_session`, which manage.py does not define (it has `get_session`). main.py:41 filters on `User.api_key`, which models.py does not declare. The model reads the key as the user's token.
- CreateUser: takes the generator's draws as a parameter and requires that one of them is a token no user holds. The `while True` loop of manage.py:18-21 ends only with probability one, and that argument is not modelled.
- GenerateToken: takes a natural-number length; Python's `range` with a negative length would give the empty token. Randomness quality of `secrets.choice` is not modelled.
- The upstream report's reasoning count is modelled as always present inside the completion-token details. A details object whose own count is missing is not modelled.
- The two `TokenUsage` declarations (o1_client.py:7-12, test_o1.py:6-11) are field-for-field identical and share one Dafny datatype.
- Text output is left out: every `print`, the two-decimal rendering of the limit in the quota message, the `strftime` of the last-use time, and the "Never" fallback (the model always sets `last_used_at`).
- Attribute access by name is modelled for integer attributes only (`User.ReadCount`, `User.AssignCount`), since `request_count` is the only record attribute that manage.py gets wrong. The other columns are read and written as fields.
- User.AssignCount: the plain Python attribute created by assigning an unmapped name is not kept; it is never written to the database.
- Floating point is left out: money is `real`, with no rounding.
- Concurrency and atomicity of same-user updates are left out; the code implements neither.
- The command-line wiring in manage.py:123-167, the `__main__` demos and the browser UI in `static/app.js` are left out.
