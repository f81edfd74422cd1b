# BudgetPro ledger core, modelled in Dafny

BudgetPro is a personal budgeting web application: an Express/MongoDB
backend stores each user's transactions (income or expense, category,
amount, date) and budgets (category, limit, spent), and a browser front end
draws a dashboard, charts and an AI-generated monthly report over them.
This project models the logic of that system that has behaviour worth
stating, and proves it:

- **Dashboard** (`frontend/js/dashboard.js`): the client ledger as a class.
  It holds a `seq` of transactions and an `array` of budgets. The budget
  reconciler recomputes every budget's `spent` in place. The balance gate
  and the budget gate run in front of adding a budget or a transaction, and
  delete filters by id. Also modelled: the statistics cards, the budget
  status thresholds, and the expense breakdown (grouped, summed, sorted by
  amount, descending).
- **Server** (`backend/server.js`): the document store as a class over
  sequences of users, transactions and budgets. Its methods are the sign-up,
  one-time-code and sign-in routes, and the transaction and budget routes
  with their incremental `budget.spent` bookkeeping. The invariant studied
  is `Tracks`: every budget's `spent` equals the sum of its owner's expenses
  in its category.
- **Charts** (`frontend/js/charts.js`): the period filter, the daily, weekly
  and monthly bucket series, category totals in first-seen order, the "no
  data" checks, and the module state changed by `changeTimePeriod`.
- **Reports** (`frontend/js/ai-reports.js`): the current-month financial
  summary (totals, savings rate, category breakdown with counts, budget
  analysis) and the three-month trend.
- **ReplyText** (`frontend/js/ai-reports.js`): the line scanner that pulls
  recommendations and insights out of the model's reply.
- **Auth** (`frontend/js/auth.js`): the password-strength meter, the
  six-box one-time-code input (reading and pasting), and the session kept in
  local storage.
- **Ledger** and **Calendar**: shared by the modules above.
  - Ledger: transactions, budgets, sums, filters, category grouping.
  - Calendar: civil dates with an ordinal day number, month arithmetic the
    way JavaScript's `Date` normalises out-of-range months, and "one year
    earlier" the way `setFullYear` rolls 29 February over.

Amounts are integers (the smallest currency unit). Percentages and rates are
exact reals. Dates are civil `(year, month, day)` triples. The current date
is a parameter.

## Model

| member | source | states |
|---|---|---|
| Dashboard.MappingIsIdentity | frontend/js/dashboard.js:366-387 | the reconciler's filter (a direct match or a match through the category mapping) holds exactly for expenses of that exact category |
| Dashboard.SpentForIsExpenseSum | frontend/js/dashboard.js:378-389 | the amount the reconciler assigns to a budget is the sum of the expense amounts in exactly its category |
| Dashboard.ReconciledCorrect | frontend/js/dashboard.js:373-391 | after reconciling, every budget's spent equals its category's expense sum; the list keeps its length; nothing but spent changes |
| Dashboard.ReconcileIdempotent | frontend/js/dashboard.js:373-391 | reconciling twice gives the same budgets as reconciling once |
| Dashboard.ReconcileConsistentIsNoOp | frontend/js/dashboard.js:373-391 | reconciling budgets that are already consistent changes nothing |
| Dashboard.ClientLedger.UpdateAllBudgetsSpending | frontend/js/dashboard.js:362-395 | the budget array is updated in place to the reconciled list; the transactions are untouched |
| Dashboard.ClientLedger.Load | frontend/js/dashboard.js:1029-1049 | loading stores the fetched transactions and reconciles the fetched budgets against them |
| Dashboard.CanAddExpense | frontend/js/dashboard.js:572-583 | true iff balance − amount ≥ 0 and balance ≥ 0 |
| Dashboard.CanAddExpenseReading | frontend/js/dashboard.js:572-583 | with the default amount 0 the gate means "balance non-negative"; for a non-negative amount it means "balance covers the amount" |
| Dashboard.AcceptedExpenseKeepsBalance | frontend/js/dashboard.js:833-838 | an expense the balance gate accepts leaves income − expenses non-negative once it is added |
| Dashboard.MapCategory | frontend/js/dashboard.js:595 | `categoryMapping[c] \|\| c` is the category itself |
| Dashboard.FindBudget | frontend/js/dashboard.js:597 | the index of the first budget with the category, or none when no budget has it |
| Dashboard.CheckBudgetLimit | frontend/js/dashboard.js:586-611 | no budget gives allowed, no message, remaining 0; otherwise allowed iff spent + amount ≤ limit, remaining = limit − spent, and a message (category, limit, spent) exactly when refused |
| Dashboard.RemainingIndependentOfAmount | frontend/js/dashboard.js:608-610 | remaining does not depend on the expense amount |
| Dashboard.CheckBudgetLimitMonotone | frontend/js/dashboard.js:601-603 | if an amount is allowed, so is every smaller one |
| Dashboard.ComputeStats | frontend/js/dashboard.js:454-467 | total income and total expenses are the amounts of the income and of the expense transactions added up; balance = income − expenses = budgetRemaining; the balance is negative exactly when the balance gate refuses amount 0 |
| Dashboard.StatsEmpty | frontend/js/dashboard.js:454-458 | an empty list shows zero on every card |
| Dashboard.StatsPrepend | frontend/js/dashboard.js:454-458 | putting one transaction at the head of the list (as adding one does) moves exactly its own type's total by its amount, and the balance and remaining budget up by it for income and down for an expense |
| Dashboard.TransactionCountByCategory | frontend/js/dashboard.js:1420-1422 | the count is the length of the list filtered to the category; it is at most the list length, 0 iff no transaction has the category and the full length iff all have it |
| Dashboard.BudgetStatusThresholds | frontend/js/dashboard.js:628-646 | for a positive limit: exceeded iff spent ≥ limit, critical iff 90% ≤ spent < limit, warning iff 75% ≤ spent < 90%, otherwise no status |
| Dashboard.SortByAmountDescCorrect | frontend/js/dashboard.js:1417 | the sort by amount, descending, gives a sorted permutation of its input |
| Dashboard.BreakdownEntriesCorrect | frontend/js/dashboard.js:1397-1417 | every entry's amount is its category's expense sum, and the entries' categories are exactly the expense categories |
| Dashboard.GetExpenseBreakdown | frontend/js/dashboard.js:1396-1418 | total expenses 0 gives []; otherwise entries sorted by amount descending, one per expense category (no repeats), each with its category's sum, percentage and colour |
| Dashboard.BudgetGate | frontend/js/dashboard.js:754-782 | a budget is added iff limit > 0, existing expenses ≤ limit, and (existing ≤ 90% of the limit or confirmed); "already exceeded" iff limit > 0 and existing > limit; confirmation is asked iff existing > 90% |
| Dashboard.ClientLedger.AddBudget | frontend/js/dashboard.js:746-821 | the outcome is the gate's; when added, the budget (spent = existing expenses) is appended and the list reconciled; otherwise nothing changes |
| Dashboard.TransactionGateSound | frontend/js/dashboard.js:833-846 | from consistent budgets, an accepted expense keeps the balance non-negative and keeps its budget's reconciled spend within the limit |
| Dashboard.TransactionGateCases | frontend/js/dashboard.js:832-855 | income skips both gates; an expense the balance cannot cover is refused for insufficient funds |
| Dashboard.ClientLedger.AddTransaction | frontend/js/dashboard.js:824-905 | the outcome is the gates'; an accepted transaction goes to index 0 and the budgets are reconciled; a refusal changes nothing |
| Dashboard.WithoutIdCorrect | frontend/js/dashboard.js:1091-1094 | the filter keeps exactly the transactions whose id differs; it distributes over concatenation, so order is kept; it is idempotent |
| Dashboard.ClientLedger.DeleteTransaction | frontend/js/dashboard.js:1080-1139 | when confirmed, the transactions become the id filter and the budgets are reconciled; when cancelled, nothing changes |
| Server.KindNameRoundTrip | backend/server.js:87 | the schema's type enumeration accepts exactly the stored names: each kind's name parses back to that kind, whatever parses is the name of its kind, and nothing else parses |
| Server.FirstBudget | backend/server.js:478-481 | `Budget.findOne({userId, category})`: the first matching budget, or none iff no budget matches |
| Server.TxById | backend/server.js:554-561 | the user's transaction with the id, or none iff the user owns no such transaction |
| Server.BudgetById | backend/server.js:651-660 | the user's budget with the id, or none iff the user owns no such budget |
| Server.AdjustAt | backend/server.js:483-486 | `budget.spent += delta` on the one matching budget; every other budget is unchanged |
| Server.AdjustUnique | backend/server.js:483-486 | adjusting spent keeps (user, category) unique among budgets |
| Server.CreatedAt | backend/server.js:477-488 | creating an expense adds its amount to the spent of exactly the budget with its owner and category; every other budget is unchanged and budgets stay unique |
| Server.DeletedAt | backend/server.js:563-576 | deleting an expense takes its amount off exactly the budget with its owner and category; every other budget is unchanged and budgets stay unique |
| Server.CreateKeepsTracking | backend/server.js:477-488 | creating a transaction, with its expense added to the matching budget, preserves the invariant that every budget's spent is its owner's expense sum in its category |
| Server.DeleteKeepsTracking | backend/server.js:563-576 | deleting a transaction, after subtracting an expense from its budget, preserves the tracking invariant |
| Server.UpdateKeepsTracking | backend/server.js:511-540 | the corrected update (subtract the old contribution, add the new one) preserves the tracking invariant |
| Server.UpdatedBudgetAt | backend/server.js:511-534 | under the corrected update, each budget's spent moves by its new contribution minus its old one |
| Server.UpdateAsWrittenAgreesOtherwise | backend/server.js:511-534 | except for an income→expense edit, the written update's budget changes equal the corrected update's |
| Server.UpdateIncomeToExpenseLosesTracking | backend/server.js:511-534 | as written, editing an income into an expense of a budgeted category leaves that budget's spent short |
| Server.UpdateFailedSaveLosesTracking | backend/server.js:511-540 | as written, an update whose body fails validation has already moved the budgets when the save fails |
| Server.CreateBudgetKeepsTracking | backend/server.js:623-639 | a new budget for an unused (user, category), seeded with the existing expense sum, preserves tracking and uniqueness |
| Server.UpdateBudgetKeepsTracking | backend/server.js:662-665 | changing limit or colour preserves tracking and uniqueness |
| Server.DeleteBudgetKeepsTracking | backend/server.js:677-686 | deleting a budget preserves tracking and uniqueness, and leaves transactions alone |
| Server.UserByEmail | backend/server.js:174-176 | the first user with that e-mail, or none iff nobody has it (an empty key matches nobody) |
| Server.UserByPhone | backend/server.js:366 | the first user with that phone, or none iff nobody has it (an empty key matches nobody) |
| Server.SignupRefusal | backend/server.js:158-184 | sign-up may go ahead iff name, password and method are present, the method's contact field is present, and no user has that contact; every refusal is a 400 |
| Server.OtpCheck | backend/server.js:239-247 | a code is accepted iff one is stored, the request's code equals it, and now is not past the expiry; it is invalid iff none is stored or the codes differ |
| Server.OtpLifecycle | backend/server.js:189-197 | a code issued at t is accepted until t + 10 minutes, refused after that, and refused once cleared |
| Server.ClearedCodeAcceptedAsWritten | backend/server.js:239-247 | as written, a request without a code passes against a cleared code and expiry; the corrected check refuses it |
| Server.Store.SignUp | backend/server.js:156-223 | a refusal leaves the users unchanged; otherwise one unverified user is appended with the hashed password, the method's contact, and the code with its 10-minute expiry |
| Server.Store.VerifyOtp | backend/server.js:226-278 | unknown user gives 404; a refused code gives 400 with no change; acceptance marks the user verified and clears code and expiry (corrected check; see Findings) |
| Server.Store.ResendOtp | backend/server.js:281-311 | unknown user gives 404; otherwise only that user's code and expiry are replaced |
| Server.Store.SendOtp | backend/server.js:364-389 | unknown phone gives 404; otherwise only that user's code and expiry are replaced |
| Server.Store.VerifySigninOtp | backend/server.js:392-438 | unknown phone gives 404; a refused code gives 400 with no change; acceptance clears code and expiry but leaves the verified flag alone (corrected check; see Findings) |
| Server.Store.SignIn | backend/server.js:314-361 | unknown user gives 404; an unverified user gives 403 before any password check; a wrong password gives 401; success iff verified and the password matches |
| Server.Store.CreateTransaction | backend/server.js:458-495 | a falsy type, category, amount or date gives 400 with no write; otherwise the transaction is appended and an expense is added to its budget |
| Server.Store.UpdateTransaction | backend/server.js:498-549 | unknown transaction gives 404; an invalid body gives 500 with no write; otherwise all fields are replaced and the budgets move by the corrected deltas |
| Server.Store.DeleteTransaction | backend/server.js:552-583 | unknown or foreign transaction gives 404 with no change; otherwise it is removed and an expense is subtracted from its budget |
| Server.Store.CreateBudget | backend/server.js:601-646 | missing category or limit gives 400; a duplicate (user, category) gives 400; otherwise a budget is appended with spent = existing expense sum and colour defaulting to #3b82f6 |
| Server.Store.UpdateBudget | backend/server.js:649-672 | unknown budget gives 404; otherwise limit and colour change only where the supplied value is truthy |
| Server.Store.DeleteBudget | backend/server.js:675-693 | unknown budget gives 404; otherwise that budget is removed and transactions are untouched |
| Calendar.ShiftMonth | frontend/js/ai-reports.js:167 | `new Date(y, m − i, 1)`: a valid month whose month index is shifted by exactly the offset |
| Calendar.YearEarlier | frontend/js/charts.js:314-315 | `setFullYear(year − 1)`: a valid date in the previous year (29 February rolls over to 1 March) |
| Calendar.YearEarlierMeaning | frontend/js/charts.js:314-315 | the month and day are kept whenever that date exists in the previous year; otherwise the date was 29 February and becomes 1 March; either way it lies 365 or 366 days back |
| Calendar.DaysInMonth | frontend/js/charts.js:420 | `new Date(y, m + 1, 0)`: the length of the month, between 28 and 31 |
| Calendar.MonthWindow | frontend/js/charts.js:419-420 | a valid date's ordinal lies between a month's first and last day iff the date is in that month |
| Charts.FilterByPeriodCorrect | frontend/js/charts.js:300-325 | a transaction is kept iff it is an expense dated between the period start and today; an unknown period behaves like 7 days; one year back is the same date a year earlier; the filter distributes over concatenation |
| Charts.DailyWindows | frontend/js/charts.js:352-374 | exactly `days` buckets of one day each, each starting the day after the previous one ends, the last being today |
| Charts.WeeklyWindows | frontend/js/charts.js:385-405 | exactly `weeks` buckets of seven days each, each starting the day after the previous one ends, the last ending today |
| Charts.MonthsConsecutive | frontend/js/charts.js:415-420 | the corrected months end at today's month, each follows the previous one, and no month repeats |
| Charts.MonthlyTiles | frontend/js/charts.js:415-420 | the monthly buckets, first to last day of each corrected month, are contiguous without overlap |
| Charts.MonthBucketIsMonth | frontend/js/charts.js:426-432 | a monthly bucket's sum is the sum of the transactions dated in that calendar month |
| Charts.TilesTotal | frontend/js/charts.js:366-374 | for contiguous buckets, the bucket sums add up to the sum over the whole span: no transaction is counted twice or missed |
| Charts.SeriesWindowsTile | frontend/js/charts.js:328-378 | the series has 7 or 30 daily buckets, or 12 weekly or monthly buckets; the buckets are contiguous without overlap; the last ends today (daily, weekly) or on the last day of today's month (monthly) |
| Charts.SeriesTotal | frontend/js/charts.js:328-378 | the bucket values add up to the sum over the whole span the series covers |
| Charts.GetDailySpendingData | frontend/js/charts.js:352-375 | labels and values for the daily buckets, oldest day first, values zero-filled |
| Charts.GetWeeklySpendingData | frontend/js/charts.js:381-408 | labels and values for the weekly buckets |
| Charts.GetMonthlySpendingData | frontend/js/charts.js:411-438 | labels and values for the corrected monthly buckets |
| Charts.GetSpendingData | frontend/js/charts.js:328-378 | as many labels as values, the values being the bucket sums of the period's series |
| Charts.CategorySpendingCorrect | frontend/js/charts.js:441-459 | the category series names every expense category once, in first-seen order, next to the sum of that category's expenses |
| Charts.GetCategorySpending | frontend/js/charts.js:441-459 | the loop gives the category series: one label per expense category, no repeats, in first-seen order, each value that category's sum |
| Charts.NoDataMeansNoTransactions | frontend/js/charts.js:119-129 | with positive amounts, every bucket is zero iff no transaction falls in any bucket |
| Charts.TotalZero | frontend/js/charts.js:119 | values none of which is negative are all zero exactly when their total is zero |
| Charts.SpendingChartMeaning | frontend/js/charts.js:113-129 | with positive amounts, the spending chart says "no data for the period" exactly when no expense of the period is dated inside the span of its buckets; otherwise it draws the series' labels and one value per bucket, adding up to the spending over that span |
| Charts.CategoryChartMeaning | frontend/js/charts.js:224-235 | the category chart says "no data for the period" exactly when every category's expenses in the period sum to zero; otherwise it names each expense category of the period once, next to its sum, not all zero |
| Charts.ChartState.CreateSpendingChart | frontend/js/charts.js:106-129 | the spending view becomes what SpendingChartOf gives for the list, the current period and today; nothing else changes (corrected monthly series; see Findings) |
| Charts.ChartState.CreateCategoryChart | frontend/js/charts.js:214-235 | the category view becomes what CategoryChartOf gives for the list, the current period and today; nothing else changes |
| Charts.ChartState.InitCharts | frontend/js/charts.js:62-74 | no transactions gives both empty states; otherwise the spending and category views are those of the list for the current period (corrected monthly series; see Findings) |
| Charts.ChartState.LoadChartData | frontend/js/charts.js:36-59 | returns and stores non-empty global transactions, else the list a successful request returns (a missing list read as empty); a failed request returns the empty list and keeps the stored one |
| Charts.ChartState.UpdateCharts | frontend/js/charts.js:471-490 | non-empty global transactions are stored and drawn; otherwise the list loaded from the API is stored and drawn, and after a failed request the stored list is kept and the empty state drawn; both views are stated in every branch (corrected monthly series; see Findings) |
| Charts.ChartState.ChangeTimePeriod | frontend/js/charts.js:550-553 | sets the period; when the stored list is non-empty both views become those of that list for the new period, otherwise neither view changes (corrected monthly series; see Findings) |
| Reports.MonthRecordsCorrect | frontend/js/ai-reports.js:57-85 | a record is kept iff it is present, has a date, and is in the current month and year |
| Reports.NonNumericCountsZero | frontend/js/ai-reports.js:91-97 | an undefined or NaN amount counts as 0: the totals equal those over the numeric records only |
| Reports.SavingsRateMeaning | frontend/js/ai-reports.js:148-149 | net savings = income − expenses; the rate is 0 with no income, else rate × income = 100 × net; it is positive iff income exceeds expenses and 100 iff nothing was spent |
| Reports.BreakdownItemsCorrect | frontend/js/ai-reports.js:106-118 | each category's count and amount are those of its current-month expenses, and the amounts add up to total expenses |
| Reports.CategoryBreakdown | frontend/js/ai-reports.js:106-118 | one group per expense category (a missing one becomes "Uncategorized"), no repeats, with each group's count and sum |
| Reports.BudgetAnalysisMeaning | frontend/js/ai-reports.js:123-133 | one entry per budget in order; missing numbers read as 0; remaining = limit − spent; percentage 0 for a non-positive limit, otherwise ≥ 100 iff nothing remains |
| Reports.RawTotalMeaning | frontend/js/ai-reports.js:175-181 | for numeric, undefined or NaN amounts: the unguarded sum is NaN iff some record of that type has an undefined or NaN amount, and otherwise equals the guarded total |
| Reports.CalculateSpendingTrends | frontend/js/ai-reports.js:163-192 | exactly three entries, for the month two back, one back and the current month, in that order |
| Reports.TrendMeaning | frontend/js/ai-reports.js:163-192 | the trend months are consecutive and end at the current month; savings = income − expenses (NaN if either is); with numeric amounts the totals are the months' sums |
| Reports.MissingEntryFailsAsWritten | frontend/js/ai-reports.js:167-171 | as written, one missing entry makes the trend throw, though the month filter just skips it |
| Reports.TrendsAgreeWithoutMissingEntries | frontend/js/ai-reports.js:163-192 | without missing entries the written trend and the corrected one agree (a bridge that unfolds the two definitions) |
| Reports.PrepareFinancialSummary | frontend/js/ai-reports.js:37-159 | the month, count, overview and breakdown come from the current-month records, and the breakdown amounts add up to total expenses; the budget analysis comes from the budgets; the trend is over all entries for the three months ending now, skipping missing entries (corrected trend; see Findings) |
| ReplyText.SplitJoin | frontend/js/ai-reports.js:297 | splitting on newlines and joining again gives the text back |
| ReplyText.Trim | frontend/js/ai-reports.js:304 | the trimmed line is a slice of the line that neither starts nor ends with JavaScript white space, and everything cut off on either side is white space |
| ReplyText.ContainsMeaning | frontend/js/ai-reports.js:301 | `includes` holds iff the substring occurs at some position |
| ReplyText.IsNumberedMeaning | frontend/js/ai-reports.js:304 | `/^\d+\./` holds iff the line starts with one or more digits followed by a dot |
| ReplyText.StripPairsPlain | frontend/js/ai-reports.js:308-309 | the marker removal leaves a line without markers unchanged |
| ReplyText.ItemOfMeaning | frontend/js/ai-reports.js:304-313 | a line yields an item iff its trimmed form is a list line and its cleaned text is non-empty and does not contain the exclusion (a bridge that unfolds the definitions of the item test, used by ExtractedMeaning) |
| ReplyText.ScanStartsAtFirstMention | frontend/js/ai-reports.js:300-303 | the section flag makes the scan collect from the first line that mentions the keyword onward, and it is never reset |
| ReplyText.CandidatesMeaning | frontend/js/ai-reports.js:303-315 | an item is collected iff some scanned line yields it |
| ReplyText.CollectItems | frontend/js/ai-reports.js:297-319 | the loop's items are the first `cap` items of the section scan, in line order: the section flag is set by the first mentioning line and never cleared, and a line's item is kept once the flag is set |
| ReplyText.Extract | frontend/js/ai-reports.js:295-319 | splitting the reply into lines and scanning them with the keyword and exclusion tests yields the first `cap` items of that section scan |
| ReplyText.ExtractedMeaning | frontend/js/ai-reports.js:295-319 | at most `cap` items, each non-empty, free of the exclusion, and the cleaned text of a list line at or after the first mention |
| ReplyText.ExtractRecommendations | frontend/js/ai-reports.js:295-319 | the scan for "recommendation", excluding "specific actionable", capped at 5 |
| ReplyText.ExtractInsights | frontend/js/ai-reports.js:322-346 | the scan for "insight", excluding "spending insights", capped at 3 |
| Auth.CriteriaCount | frontend/js/auth.js:135-140 | the score counts one point per criterion met |
| Auth.PasswordScore | frontend/js/auth.js:133-140 | the score is the number of criteria met: at most 4 |
| Auth.CheckPasswordStrength | frontend/js/auth.js:131-153 | no class is shown iff no criterion is met; weak for one or two criteria, medium for three, strong iff all four hold |
| Auth.ClassifyMeaning | frontend/js/auth.js:144-152 | no class iff no criterion is met (the empty password included); weak for 1–2; medium for 3; strong iff all four criteria hold |
| Auth.CriteriaGrow | frontend/js/auth.js:135-140 | typing more never loses a point: a password's criteria still hold for any extension of it |
| Auth.GetOtpValue | frontend/js/auth.js:121-128 | the code is the concatenation of the boxes' values in document order |
| Auth.ConcatLength | frontend/js/auth.js:121-128 | the code's length is the total length of the boxes' values |
| Auth.Paste | frontend/js/auth.js:77-89 | the first min(6, length) characters go one per box from the first; extra characters are dropped; other boxes keep their values; focus goes to the box after the last pasted character, if there is one |
| Auth.ReadBackPasted | frontend/js/auth.js:79-84 | boxes holding one pasted character each read back as that prefix of the clipboard |
| Auth.SessionMeansAuthenticated | frontend/js/auth.js:202-225 | a session exists iff signed in and a non-empty user is stored; a token alone signs in without a session |
| Auth.SessionRoundTrip | frontend/js/auth.js:196-220 | after saving, the session reads back when token and user are non-empty; after clearing, neither is present and other keys are kept |
| Ledger.GroupByCategory | frontend/js/charts.js:444-453 | grouping in a loop gives the category groups in first-seen order, with each category's sum and count |
| Ledger.GroupTotalsCorrect | frontend/js/dashboard.js:1404-1410 | the groups have distinct categories, are exactly the items' categories, and carry each category's sum and count in first-seen order |
| Ledger.GroupTotalsConserve | frontend/js/dashboard.js:1398-1410 | the group amounts add up to the total of the items |

## Left out

- Rendering and events: DOM templates, toasts, modals, the Chart.js configuration, label text (`toLocaleDateString`), the report HTML, `createReportPrompt` and the report export. These are presentation. Chart labels are kept only as the day, week or month they describe.
- I/O: HTTP, `fetch`/`apiRequest`, the AI back-end call, and Express routing. The dashboard's handlers assume the request fails, because `apiRequest` throws on any non-ok reply, so the offline branch is the one that runs for server refusals.
- Persistence and crypto: MongoDB and mongoose, bcrypt and JWT. A stored password is an opaque hash, and its check is a parameter of `Server.Store.SignIn`.
- Mongoose's query semantics for `undefined` keys are left out. An empty e-mail or phone matches no user.
- Randomness and the clock: `generateOTP` and `getRandomColor` are left out. The new code and the current time (or today's date) are parameters, and ids come from a counter.
- Time of day and time zones: dates are calendar days. The model does not capture:
  - the UTC truncation of `toISOString` against local `getMonth`;
  - the start day being excluded, when `>=` compares against a start that has the current time of day.
- Number semantics:
  - Amounts are integers, not floating point.
  - A report amount is modelled as a number or as undefined/NaN.
  - NaN appears only where the source's sums propagate it (`Reports.Trend`).
  - Report amounts are numbers, undefined or NaN. A `null` amount (which the unguarded `+` reads as 0) and a string amount (which `+` concatenates) are not modelled: the schema stores amounts as numbers (`backend/server.js:89`) and the form parses them with `parseFloat` (`frontend/js/dashboard.js:829`).
- Text semantics:
  - Lower-casing is ASCII only. This is exact for the containment tests: a keyword would need a 'k' (the Kelvin sign) or a dotted 'i' next to combining marks for full Unicode case mapping to differ, and none has either.
  - Object key order and prototype keys such as `"constructor"` are not modelled.
- `Auth.Paste`: each clipboard character fills one box. Splitting an astral character into two UTF-16 halves is not captured.
- `Auth.SessionRoundTrip`: the stored user is the JSON text. `JSON.parse` and its failure are not modelled.
- `Dashboard.ClientLedger.DeleteTransaction`: the loose comparison `id \|\| _id != transactionId` is modelled as inequality of one string id.
- `Server.Store.UpdateTransaction`: the request carries every field. A partial body behaves like a body that fails validation, which gives 500 with no write.
- Duplicate definitions that override each other (`loadDashboardData`, `window.initializeCharts`, `window.changeTimePeriod`) and the `setTimeout` and `async` ordering are left out. Only the final behaviour is modelled.
- The sign-in and sign-up page scripts are left out. Their only logic is a six-character length check on the code.
- Weekly series: the code draws 12 weekly buckets (`frontend/js/charts.js:343`).

## Findings

| source | as written | input that shows it | evidently intended | confidence | as-written member | corrected member |
|---|---|---|---|---|---|---|
| backend/server.js:511-534 | the new category's budget is credited only when the stored transaction was already an expense | an income of 5 in Food, with a Food budget spent 0, edited into an expense of 5 in Food: spent stays 0 | subtract the old contribution and add the new one, whatever the old type | not executed | Server.UpdateIncomeToExpenseLosesTracking | Server.UpdateKeepsTracking |
| backend/server.js:511-540 | the budgets are written before the transaction is saved, so a body the schema refuses gives a 500 after the budgets have moved | an expense of 5 in Food, with the Food budget spent 5, updated with a body of type "income" (5, Food) that has no date: 500, and the budget spent becomes 0 | validate the body first and touch nothing on failure | not executed | Server.UpdateFailedSaveLosesTracking | Server.Store.UpdateTransaction |
| backend/server.js:239-247 | after a successful check the code and expiry are cleared; a later request without `otp` passes `undefined !== undefined` and the expiry test `now > undefined` | a verified user, a request with no otp field: accepted again and a token is issued | refuse when no code is stored | not executed | Server.ClearedCodeAcceptedAsWritten | Server.OtpCheck |
| frontend/js/charts.js:416-417 | `setMonth(getMonth() − i)` keeps today's day, so from the 29th to the 31st a short month overflows into the next one | today 2026-10-31: the buckets for i = 1 and i = 0 are both October 2026, and September 2026 has no bucket | shift from the first of the month, giving 12 consecutive months | not executed | Charts.MonthlyBucketSkippedAsWritten | Charts.MonthsConsecutive |
| frontend/js/ai-reports.js:167-171 | the trend reads `tx.date` without the guard the current-month filter has (lines 57-60) | a transaction list holding one missing (null) entry: the report throws, though the month filter skips that entry | skip missing entries as the current-month filter does | not executed | Reports.MissingEntryFailsAsWritten | Reports.CalculateSpendingTrends |
