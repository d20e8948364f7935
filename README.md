# Personal-finance backend: a Dafny model of its handlers

This project models the Express/Mongoose backend of a personal-finance
tracker. Users post income and expense transactions. They keep per-category
budgets, savings goals and recurring-transaction schedules. They read a
financial report and a summary of their own finances. An administrator
reads a summary of every user.

The model covers these parts of the backend:

- **Stored documents** (`Docs`, `Records`, `Store`). Each collection is a
  sequence of documents in the store's natural order. A document carries
  its id and its owner. `Store.Db` is a class holding one such sequence per
  collection and the counter that issues fresh ids.
- **Handlers that change the store.** Each is a module-level method that
  takes the store `db: Db` and names in its `modifies` clause the fields it
  may change. It returns the HTTP reply it sends (`Http.Reply`). Its
  `ensures` states, for every branch, the new contents of the collection
  it changes and the new id counter (one past the old on a successful
  create, unchanged otherwise): the 404 → 500 (no caller) → 403 → act
  sequence of every update and delete, and the Mongoose validation
  failures that become 500s.
- **Read-only handlers and the aggregations.** The list handlers for
  transactions, budgets, goals and schedules, the financial report and the
  administrator summary are methods that take `db` and change nothing. The
  upcoming-schedule check, the user summary, login and the user listing
  are functions over the collections they read. The report's accumulation
  loop and the administrator's loop over users are `while` loops with
  invariants. Each aggregation is tied
  to a reference definition (`Ledger.Total`, `Reports.CategorySpend`) by
  lemmas.
- **Authentication middleware** (`Auth`). Token extraction, the role
  check, and the composition of the two on the admin routes. JWT
  verification, signing and password comparison are function parameters.
- **JavaScript semantics the handlers rely on** (`Js`). Truthiness of
  optional fields (`""` and `0` are falsy), the `new || old` merge,
  `split(',')` and `replace` of the first occurrence.

Dates are millisecond timestamps (`int`). Amounts are integers. The current
time and the bounds of the current local day are parameters of the handlers
that read the clock.

## Model

| member | source | states |
|---|---|---|
| Docs.Find | backend/controllers/transactionController.js:101 | `findById`: the position of the document with that id, or none exactly when no document has it |
| Docs.Check | backend/controllers/transactionController.js:101-112 | the shared guard of updates and deletes: 404 iff no document has the id; 500 iff it exists and no caller is attached; with unique ids, granted iff the caller owns it, else 403 |
| Docs.Remove | backend/controllers/transactionController.js:140 | `deleteOne` leaves every other document, in order |
| Docs.RemoveExactly | backend/controllers/budgetController.js:75 | with unique ids, the documents left are exactly those whose id differs from the removed one |
| Docs.RemoveKeepsKeyed | backend/controllers/goalController.js:77 | removing a document keeps ids unique and below the id counter |
| Docs.AppendKeepsKeyed | backend/controllers/transactionController.js:64 | saving a document with a fresh id keeps ids unique |
| Docs.ReplaceKeepsKeyed | backend/controllers/transactionController.js:112 | saving a merged document under its own id keeps ids unique |
| Docs.Owned | backend/controllers/budgetController.js:31 | `find({ userId })` holds exactly the caller's documents |
| Docs.Filter | backend/controllers/userSummary.js:12-13 | `filter` keeps exactly the elements satisfying the predicate, never more than it was given |
| Records.ParseKind | backend/models/transaction.js:6 | the `type` enum accepts exactly the names "income" and "expense", and the parsed kind prints back as the given name |
| Records.ParseWindow | backend/models/budget.js:8 | the budget `type` enum accepts exactly "daily" and "monthly" |
| Records.ParseFlow | backend/models/recurrenceTransaction.js:6 | the schedule `type` enum accepts exactly the capitalised "Income" and "Expense" |
| Records.ParseCadence | backend/models/recurrenceTransaction.js:10-14 | the `recurrence` enum accepts exactly "Daily", "Weekly", "Monthly" and "Yearly" |
| Records.WithoutPassword | backend/middleware/authMiddleware.js:13 | `select('-password')` drops the password and nothing else: the profile with the password put back is the stored user |
| Records.FindUser | backend/middleware/authMiddleware.js:13 | `User.findById`: a user with that id, or none exactly when no user has it |
| Records.FindByEmail | backend/controllers/userController.js:15 | `User.findOne({ email })`: a user with that email, or none exactly when no user has it |
| Store.FindBudget | backend/controllers/transactionController.js:7 | `Budget.findOne({ userId, category })`: a budget of that user and category, or none exactly when there is none |
| Store.Db.NewId | backend/controllers/transactionController.js:56-64 | the `_id` a newly saved document receives is the id counter, unused by any stored document, and the counter moves past it |
| Store.FindBudgetUnique | backend/controllers/budgetController.js:9 | with at most one budget per (user, category), the lookup returns that very budget |
| Js.Split | backend/controllers/transactionController.js:84 | `split(',')` yields at least one part and no part contains the separator |
| Js.JoinSplit | backend/controllers/reportController.js:24 | joining the parts of a split with the separator gives the original string back |
| Js.SplitJoin | backend/controllers/reportController.js:24 | splitting a join of separator-free parts gives the parts back |
| Js.FirstOccurrence | backend/middleware/authMiddleware.js:6 | the first position at or after `from` where the pattern occurs, or none when it does not occur there |
| Js.ReplaceFirst | backend/middleware/authMiddleware.js:6 | `replace` of a string pattern: unchanged when the pattern does not occur, otherwise its first occurrence replaced and the rest kept |
| Ledger.OfKind | backend/controllers/userSummary.js:12-13 | `filter(t => t.type === k)` keeps exactly the transactions of kind k |
| Ledger.AmountsOfKind | backend/controllers/reportController.js:33-44 | a running total of kind k (`Amounts`, the loop's `+=`) equals filtering by k and adding up (`Sum`, the `reduce`) |
| Ledger.SumOfKindOwned | backend/controllers/userSummary.js:11-17 | finding the user's transactions, filtering a kind and reducing (`Sum`) gives `Total`, the reference total of that user and kind in store order |
| Ledger.Select | backend/controllers/transactionController.js:87 | `Transaction.find(filter)` holds exactly the stored transactions the filter admits |
| Transactions.OverBudget | backend/controllers/transactionController.js:5-44 | the advisory budget check: never raised without a budget for that user and category |
| Transactions.OverBudgetIff | backend/controllers/transactionController.js:13-36 | the corrected check is raised exactly when `Spent`, the sum of all the user's transactions in the category dated inside `WindowOf` the budget (today for daily, the stored dates for monthly, both ends included), plus the posted amount exceeds the limit |
| Transactions.AfterSaveCountsPostedTwice | backend/controllers/transactionController.js:64-67 | `OverBudgetAfterSave`, the check as the handler runs it after the save, is raised exactly when the spend before the posting plus twice the posted amount exceeds the limit, for a posting inside the window |
| Transactions.DoubleCountWitness | backend/controllers/transactionController.js:36 | a posting of 60 against an empty daily budget of 100 is reported as exceeding it |
| Transactions.Draft | backend/controllers/transactionController.js:56-64 | the record saved: the body's type, amount, category and tags dated now; rejected exactly when the type is missing or not in the enum, the amount is missing or the category is empty |
| Transactions.CreateTransaction | backend/controllers/transactionController.js:47-74 | 400 without a caller; 500 with nothing stored when validation fails; otherwise 201 with the new transaction appended under a fresh id, and the budget flag as the source computes it, after the save (`OverBudgetAfterSave`); the id counter moves only on success |
| Transactions.QueryFilterListed | backend/controllers/transactionController.js:80-84 | `QueryFilter`, the filter the handler builds, admits a transaction exactly when it is the caller's and matches every truthy query field (tags: any shared tag) |
| Transactions.InsertByDate | backend/controllers/transactionController.js:87 | inserting into a newest-first list keeps it newest-first and adds exactly that transaction |
| Transactions.SortNewestFirst | backend/controllers/transactionController.js:87 | `sort({ date: -1 })`: newest first, and a permutation of its input |
| Transactions.GetTransactions | backend/controllers/transactionController.js:77-93 | no reply at all when no caller is attached (read outside the `try`); otherwise 200 with exactly the listed transactions, newest first, as a permutation of what `find` returned |
| Transactions.Patched | backend/controllers/transactionController.js:108-112 | each truthy body field replaces the stored one and the rest are kept; the date is never touched; rejected exactly when a truthy type is not in the enum |
| Transactions.PatchedIdempotent | backend/controllers/transactionController.js:108-112 | applying the same update twice gives what applying it once does |
| Transactions.EmptyPatchKeeps | backend/controllers/transactionController.js:108-112 | a body with no truthy field leaves the transaction as it was |
| Transactions.UpdateTransaction | backend/controllers/transactionController.js:96-119 | 404 / 500 / 403 per `Check`; a merge rejected by validation gives 500; otherwise 200 with the merged transaction in place of the old one |
| Transactions.DeleteTransaction | backend/controllers/transactionController.js:122-147 | 404 / 500 / 403 per `Check`; otherwise the transaction is removed and the message "Transaction deleted" is sent |
| Budgets.AppendKeepsOnePerCategory | backend/controllers/budgetController.js:12-22 | saving a budget for a (user, category) with no budget yet keeps at most one budget per pair |
| Budgets.RemoveKeepsOnePerCategory | backend/controllers/budgetController.js:75 | deleting a budget keeps at most one budget per (user, category) |
| Budgets.Existing | backend/controllers/budgetController.js:9 | the existing budget for the body's category; none when the category is missing, since such a query matches nothing |
| Budgets.BudgetDraft | backend/controllers/budgetController.js:16-22 | the record saved: category, limit, type and dates (defaulting to now); rejected exactly when a required path is missing or the type is not in the enum |
| Budgets.CreateBudget | backend/controllers/budgetController.js:5-26 | 400 when the caller already has a budget for the category; 500 when there is no caller or validation fails; otherwise 201 with the new budget appended, one budget per (user, category) kept |
| Budgets.GetBudgets | backend/controllers/budgetController.js:29-36 | 200 with the caller's budgets, exactly and in store order; 500 without a caller |
| Budgets.BudgetPatched | backend/controllers/budgetController.js:51-54 | limit, type and dates replaced by the truthy or present body fields, the category never; rejected exactly when a truthy type is not in the enum |
| Budgets.BudgetPatchedIdempotent | backend/controllers/budgetController.js:51-54 | applying the same budget update twice gives what applying it once does |
| Budgets.UpdateBudget | backend/controllers/budgetController.js:39-61 | 404 / 500 / 403 per `Check`; otherwise 200 with the merged budget in place, one budget per (user, category) kept |
| Budgets.DeleteBudget | backend/controllers/budgetController.js:64-80 | 404 / 500 / 403 per `Check`; otherwise the budget is removed and "Budget deleted successfully" is sent |
| Goals.NewGoal | backend/controllers/goalController.js:12-18 | a new goal takes the body's name, category and target, and has saved nothing |
| Goals.CreateGoal | backend/controllers/goalController.js:4-26 | 400 when name, category or target is missing or falsy, checked before the caller; 500 without a caller; otherwise 201 with the goal appended |
| Goals.GetGoals | backend/controllers/goalController.js:30-38 | 200 with the caller's goals, exactly and in store order; 500 without a caller |
| Goals.GoalPatched | backend/controllers/goalController.js:53-55 | truthy name, target and category replace the stored ones; the saved amount is never changed |
| Goals.GoalPatchedIdempotent | backend/controllers/goalController.js:53-55 | applying the same goal update twice gives what applying it once does |
| Goals.UpdateGoal | backend/controllers/goalController.js:41-63 | 404 / 500 / 403 per `Check`; otherwise 200 with the merged goal in place |
| Goals.DeleteGoal | backend/controllers/goalController.js:66-83 | 404 / 500 / 403 per `Check`; otherwise the goal is removed and "Goal deleted" is sent |
| Goals.MergeKeepsNothingSaved | backend/models/goal.js:7 | no handler ever sets a saved amount: a merge keeps every saved amount at zero |
| Recurrences.ScheduleDraft | backend/controllers/recurrenceTransactionController.js:10-19 | the record saved: the body's fields with `createdAt` now; rejected exactly when a required path is missing or an enum value is wrong |
| Recurrences.CreateSchedule | backend/controllers/recurrenceTransactionController.js:6-26 | 500 without a caller or when validation fails; otherwise 201 with the schedule appended |
| Recurrences.GetSchedules | backend/controllers/recurrenceTransactionController.js:29-36 | 200 with the caller's schedules, exactly and in store order; 500 without a caller |
| Recurrences.SchedulePatched | backend/controllers/recurrenceTransactionController.js:51-57 | truthy type, amount, category and recurrence and present tags and dates replace the stored ones; `createdAt` is never touched; rejected exactly when a truthy enum value is wrong |
| Recurrences.SchedulePatchedIdempotent | backend/controllers/recurrenceTransactionController.js:51-57 | applying the same schedule update twice gives what applying it once does |
| Recurrences.UpdateSchedule | backend/controllers/recurrenceTransactionController.js:39-64 | 404 / 500 / 403 per `Check`; a merge rejected by validation gives 500; otherwise 200 with the merged schedule in place |
| Recurrences.DeleteSchedule | backend/controllers/recurrenceTransactionController.js:67-83 | 404 / 500 / 403 per `Check`; otherwise the schedule is removed and "Recurrence transaction deleted" is sent |
| Recurrences.Upcoming | backend/controllers/recurrenceTransactionController.js:88-91 | exactly the caller's schedules starting between now and two days from now, both ends included |
| Recurrences.UpcomingIsOwnedSubsequence | backend/controllers/recurrenceTransactionController.js:88-91 | the upcoming list is the caller's schedules, in store order, filtered by the start window |
| Recurrences.CheckUpcoming | backend/controllers/recurrenceTransactionController.js:86-97 | 200 with exactly the upcoming schedules; 500 without a caller |
| Reports.BumpLookup | backend/controllers/reportController.js:40-42 | `Bump`, the step that adds an expense to its category's entry, raises that category's `Lookup` value by the amount and no other |
| Reports.BumpSum | backend/controllers/reportController.js:40-42 | adding to an entry raises the sum of all values by the amount |
| Reports.BumpDistinct | backend/controllers/reportController.js:40-42 | the breakdown object never holds a key twice |
| Reports.BreakdownLookup | backend/controllers/reportController.js:33-44 | in `Breakdown`, the object the loop builds, each category's value is the sum of that category's expense amounts |
| Reports.BreakdownKeys | backend/controllers/reportController.js:33-44 | the breakdown has distinct keys, exactly the categories of the expenses |
| Reports.BreakdownSumsToExpense | backend/controllers/reportController.js:33-44 | the breakdown values add up to the total expense |
| Reports.ReportFilter | backend/controllers/reportController.js:15-24 | the filter: the caller; a date range only when both ends are given; the category only when truthy; tags only when truthy, split on commas so that joining them gives the query back |
| Reports.ReportFilterAdmits | backend/controllers/reportController.js:15-29 | the report's filter admits a transaction exactly when it is the caller's and matches each condition the query supplies |
| Reports.Tally | backend/controllers/reportController.js:31-44 | the accumulation loop computes the income total, the expense total and the breakdown of the transactions it is given |
| Reports.GetFinancialReport | backend/controllers/reportController.js:3-61 | 401 without a caller; otherwise 200 with the selected transactions, their totals, balance = income − expense and the expense breakdown |
| UserSummaries.KindTotal | backend/controllers/userSummary.js:12-17 | a user's total of one kind is the reference total |
| UserSummaries.BudgetExceed | backend/controllers/userSummary.js:22 | zero without a truthy overall budget; otherwise the amount by which expenses exceed it, negative when under |
| UserSummaries.Info | backend/controllers/userSummary.js:26-33 | saved plus remaining is the target |
| UserSummaries.GoalsInfo | backend/controllers/userSummary.js:25-34 | one entry per goal of the user, in store order |
| UserSummaries.UserSummary | backend/controllers/userSummary.js:6-46 | 500 without a caller or a stored user; otherwise 200 with the reference totals, their balance, the budget excess and the goal entries |
| UserSummaries.OwnerOnlySelect | backend/controllers/userSummary.js:11 | a find with only the owner condition is the owner's transactions |
| UserSummaries.UnfilteredReportAgrees | backend/controllers/reportController.js:33-47 | a report with no query reports the same totals and balance as the user summary |
| AdminSummaries.EntryFor | backend/controllers/adminSummary.js:14-38 | a user's entry: the name, the reference totals of that user, their balance and one brief per goal |
| AdminSummaries.AdminSummary | backend/controllers/adminSummary.js:6-45 | 500 when a store read fails; otherwise 200 with one entry per user, in store order |
| AdminSummaries.EntryAgreesWithUserSummary | backend/controllers/adminSummary.js:19-21 | each user's entry has the same totals and balance as that user's own summary |
| Auth.Token | backend/middleware/authMiddleware.js:6 | a token exactly when the header is present |
| Auth.BearerStripped | backend/middleware/authMiddleware.js:6 | "Bearer " followed by a token yields the token |
| Auth.UnprefixedKept | backend/middleware/authMiddleware.js:6 | a header without "Bearer " is taken as the token unchanged |
| Auth.Attached | backend/middleware/authMiddleware.js:13 | the attached user is the stored user with that id minus the password, or null when there is none |
| Auth.Protect | backend/middleware/authMiddleware.js:5-20 | 401 "No token provided" without a truthy token; 401 "Invalid token" when verification fails; otherwise the request proceeds with the attached user, possibly null |
| Auth.NoTokenNoVerify | backend/middleware/authMiddleware.js:8 | without a token the verifier is never consulted and the reply is 401 |
| Auth.Authorize | backend/middleware/authMiddleware.js:23-28 | proceeds exactly when the user's role is in the list; 403 otherwise; throws on a null user |
| Auth.AdminRouteNeedsAdmin | backend/routes/summaryRoutes.js:11 | `AdminRoute`, the chain `protect, authorize(['Admin'])`, proceeds exactly when a valid token names a stored user whose role is "Admin", and then carry that user without the password |
| Users.AppendKeepsUsersKeyed | backend/controllers/userController.js:15-21 | registering an unused email under a fresh id keeps user ids and emails unique |
| Users.Register | backend/controllers/userController.js:11-25 | 400 "Email already in use" with nothing stored; otherwise the user is appended under a fresh id and 201 carries that id's token |
| Users.Login | backend/controllers/userController.js:28-42 | 400 "Invalid credentials" for an unknown email or a wrong password; otherwise 200 with the user's token |
| Users.LoginIff | backend/controllers/userController.js:32-38 | with unique emails, login of a stored user succeeds exactly when the password matches, and returns that user's token |
| Users.GetUsers | backend/controllers/userController.js:45-52 | 200 with every user, in order, without the password |

## Left out

- Storage and network failures are not modelled. The `catch` branches that only a failing database call reaches are not modelled either: "Error fetching transactions", "Error registering user", "Login error", and the 401 from a `findById` that throws in `protect`. The one exception is the administrator summary, where a failure is a parameter (`StoreFault`).
- Concurrency is not modelled. Handlers run one at a time, so two `createBudget` calls for the same category cannot race.
- Amounts are integers. JavaScript numbers are doubles; rounding and non-numeric amounts are not modelled.
- Dates are millisecond timestamps given as such. Parsing date strings (`new Date(...)`, Mongoose casts) is not modelled, and neither are invalid dates or malformed ids, which the source turns into 500s.
- The clock is a parameter (`now`). The local start and end of today, which `setHours` computes in the server's time zone, are the parameter `Day`.
- Recurrences.Upcoming: two days are a fixed 48 hours. The calendar arithmetic of `moment().add(2, 'days')` across a daylight-saving change is not modelled.
- The User model (backend/models/user.js) is not part of this model. Password hashing, its schema validation and its default role are not modelled. The stored password and the comparison are opaque, and the comparison is a parameter.
- JWT signing and verification, including expiry and the secret, are function parameters.
- The budget notification in `checkBudgetExceed` is only a console message in the source. The model returns it as the flag `overBudget` instead of logging it, computed after the save as the source does.
- Console logging, Express routing other than the two admin routes, and server start-up are not modelled.
- Reports.Breakdown: JavaScript enumerates integer-like keys of an object (a category named "2", say) before the others. The model keeps every key in insertion order.
- Reports.Bump: a category that names a member every JavaScript object inherits ("constructor", "toString", "__proto__") reads that inherited member (a function, or `Object.prototype` for "__proto__") instead of `undefined`, and adds the amount to it. The model treats such a category like any other key.
- Budgets.DeleteBudget: the handler calls `budget.remove()`, where the other delete handlers call `deleteOne()`. The model takes it to remove the budget, as Mongoose versions before 7 do. From Mongoose 7 on, documents have no `remove()`: the call throws, the reply is 500 "Error deleting budget" and nothing is removed.
- Budgets.Existing: a body without `category` is taken to match no stored budget. This assumes the undefined condition reaches the database as a null match, which no stored budget satisfies because `category` is required. Such a request then fails validation with 500.
- Budgets.BudgetDraft: a date in a request body is `Option<Time>`, and `None` stands for a missing, null or empty-string date. In the `||` merges all three are falsy and keep the stored date, as the source does. At budget creation the model gives a `None` date the default, now. Mongoose gives the default only to a missing date and stores an empty string as null.
- Behaviours that appear only in the repository's tests are not in the handlers and are not modelled: currency conversion, insufficient-funds checks and accrual of saved amounts to goals.

## Findings

| source | as written | input that shows it | evidently intended | confidence | as-written member | corrected member |
|---|---|---|---|---|---|---|
| backend/controllers/transactionController.js:64-67 | `checkBudgetExceed` runs after `transaction.save()`, so the aggregate already includes the posted amount, and the amount is then added again | an expense of 60 posted today against a daily budget of 100 with nothing spent before: 60 + 60 > 100 | compare what was spent before the posting plus the posted amount (60 ≤ 100: not exceeded) | not executed | Transactions.AfterSaveCountsPostedTwice | Transactions.OverBudgetIff |
