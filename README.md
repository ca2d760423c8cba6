# lp-expenses bookkeeping core in Dafny

This project models the bookkeeping logic of lp-expenses, a small expense tracker. It is a Next.js application with React pages and a MongoDB back end. Expenses carry a base amount, an optional list of sub-expenses (subtasks), a role and an employee. They count as paid by one rule, which every view and report relies on. The model covers:

- **The paid rule and the shared records** (`ExpenseTypes`):
  - `isExpensePaid`;
  - the default budget;
  - role names;
  - an expense's full total.
- **The expenses page** (`ExpenseViews`, `CsvReport`, `ListUpdates`, `ExpensesPage`):
  - the derived views: the wallet figures, the filter panel with its date sort, pagination, the paid history, shop suggestions and the current budget;
  - the CSV report;
  - the list rewrites done by the handlers;
  - a `Page` class holding the page's state, with one method per handler.
- **The expenses API** (`ExpensesApi`, `ExpensesRoutes`):
  - sub-expense normalisation, the expense total and shop de-duplication;
  - the POST, PUT, PATCH and DELETE handlers over a store modelled as a map from ids to expenses.
- **The initial-amount API** (`InitialAmountApi`): the validation of a new budget entry.
- **The dashboard** (`Dashboard`): its three statistics, the unwrapping of the fetched lists and the amount default.

Two helper modules support these:

- `Js` models the JavaScript values and built-ins the code relies on: truthiness, `||`, property reads that throw on null, `trim`, `Number`, `String`, `toFixed(2)`, `join` and `split`.
- `Collections` holds `filter`, `map`, de-duplication and string order, with their lemmas.

Amounts are integers and the number type has an explicit NaN. Dates are ISO strings compared character by character, as the filters compare them. Randomly generated ids, the clock, the date formatter and the week-start computation are parameters.

## Model

| member | source | states |
|---|---|---|
| ExpenseTypes.ParseRoleSpec | app/api/expenses/route.ts:178-182 | a known role name reads back as that role; only "founder" and "manager" yield those roles, anything else is Other |
| ExpenseTypes.PaidRule | app/expenses/components/types.ts:79-83 | a set flag means paid; no flag and no sub-expenses means unpaid; no flag and a non-empty list means paid exactly when every sub-expense is done |
| ExpenseTypes.PaidMonotoneInDone | app/expenses/components/types.ts:79-83 | switching sub-expenses to done never turns a paid expense unpaid |
| ExpenseTypes.SubsTotalAppend | app/expenses/page.tsx:318-321 | the sub-expense total of a concatenation is the sum of the parts' totals |
| ExpenseTypes.SubsTotalNonNegative | app/expenses/page.tsx:318-321 | sub-expenses with non-negative amounts total at least 0 |
| ExpenseViews.SortPermutation | app/expenses/page.tsx:377-381 | the date sort is a permutation of its input |
| ExpenseViews.SortSorted | app/expenses/page.tsx:377-381 | the date sort yields a list in date order, for either direction |
| ExpenseViews.SortOfSorted | app/expenses/page.tsx:270-275 | a list already in date order is left unchanged |
| ExpenseViews.FilterSortCommute | app/expenses/page.tsx:344-381 | filtering then sorting equals sorting then filtering, because the sort is stable |
| ExpenseViews.SortStable | app/expenses/page.tsx:377-381 | the expenses of one date leave the sort in the order they entered it |
| ExpenseViews.SumTotalsSort | app/expenses/page.tsx:412-423 | sorting does not change the sum of full totals |
| ExpenseViews.KeepIff | app/expenses/page.tsx:345-375 | an expense passes the filter panel exactly when it meets every active criterion: role, status, employee, shop, inclusive date range, and a case-insensitive search over description or shop; "all" and empty criteria impose nothing |
| ExpenseViews.FilteredSpec | app/expenses/page.tsx:344-381 | the filtered list is in ascending date order, is a permutation of the passing expenses, contains exactly the input expenses that pass, and keeps the input order among equal dates |
| ExpenseViews.FilteredOfSorted | app/expenses/page.tsx:344-381 | on a date-sorted list the filtered view is the plain order-preserving filter |
| ExpenseViews.NoFiltersKeepAll | app/expenses/page.tsx:345-375 | with every criterion on "all" or empty, every expense is shown |
| ExpenseViews.VisibleExpenses | app/expenses/page.tsx:393-396 | the visible rows are the prefix of the filtered list of length min(count, size) |
| ExpenseViews.HasMoreIff | app/expenses/page.tsx:397 | "has more" holds exactly when some filtered expense is not shown |
| ExpenseViews.LoadMore | app/expenses/page.tsx:461-469 | the new count never exceeds the list size, grows by at most ten, and grows whenever rows are hidden |
| ExpenseViews.LoadMoreExtendsView | app/expenses/page.tsx:461-469 | the rows shown before loading more are a prefix of those shown after; nothing more is left exactly when the list fits in ten more rows |
| ExpenseViews.HistorySpec | app/expenses/page.tsx:399-405 | the history is sorted newest first and holds exactly the paid expenses, each as often as in the list |
| ExpenseViews.EmployeeHistorySpec | app/expenses/page.tsx:407-423 | one employee's history is their paid expenses, newest first, and its total is the sum of their full totals |
| ExpenseViews.AllTimeTotal | app/expenses/page.tsx:1562-1573 | with no employee selected, the total is the sum of the full totals of all paid expenses |
| ExpenseViews.ShopSuggestionsMembers | app/expenses/page.tsx:337-343 | a name is suggested exactly when it is the non-empty trimmed shop of some expense |
| ExpenseViews.ShopSuggestionsOrder | app/expenses/page.tsx:337-343 | suggestions hold no duplicates and appear in the order each name is first used |
| ExpenseViews.InitialAmount | app/expenses/page.tsx:152-153 | the budget is the head entry's amount, unless the history is empty or the head amount is 0, in which case it is 500000; it is never 0 |
| ExpenseViews.PaidPendingPartition | app/expenses/page.tsx:308-335 | paid total plus pending total is the sum of all full totals |
| ExpenseViews.PaidTotalIsFilter | app/expenses/page.tsx:324-330 | the paid total equals the total of the list of paid expenses |
| ExpenseViews.WalletStats | app/expenses/page.tsx:308-335 | spent and pending are the paid and unpaid totals of the period's expenses; together they make up the period total; remaining is the budget minus spent |
| ExpenseViews.SpentSpec | app/expenses/page.tsx:312-314 | only expenses dated on or after the period start are counted; a period starting at "" spends the all-time paid total |
| CsvReport.LookupEmployee | app/expenses/page.tsx:36-39 | the name under an id is that of the last listed employee with the id, and there is none exactly when no employee has it |
| CsvReport.EmployeeLabel | app/expenses/page.tsx:64-66 | the employee cell is never empty: "-" without an id; otherwise the known non-empty name, else the stored non-empty name, and "-" when neither is there |
| CsvReport.ConvertToCSV | app/expenses/page.tsx:35-127 | the one-pass loop with its three running totals builds exactly the report table, the data URI over it, and returns `encodeURI` (a parameter) of that URI |
| CsvReport.ExpenseRowsShape | app/expenses/page.tsx:72-104 | an expense yields its main row followed by one row per sub-expense, in order |
| CsvReport.CsvRowsCount | app/expenses/page.tsx:41-120 | the report has the header row first, one row per expense and per sub-expense, and the GRAND TOTAL row last |
| CsvReport.TotalRowAdds | app/expenses/page.tsx:107-116 | the grand total cell is the grand base total plus the grand sub-expense total |
| CsvReport.CsvRowsCommaFree | app/expenses/page.tsx:41-120 | when formatted dates hold no comma, every row has nine comma-free cells, since free text has its commas removed |
| CsvReport.CsvRoundTrip | app/expenses/page.tsx:118-124 | a table free of both separators is read back from its CSV text unchanged |
| ListUpdates.UpdateByIdAt | app/expenses/page.tsx:551-553 | each expense with the id is rewritten and every other expense stays at its position unchanged |
| ListUpdates.UpdateByIdOthers | app/expenses/page.tsx:551-553 | the expenses with other ids are exactly those before, in the same order |
| ListUpdates.UpdateByIdAbsent | app/expenses/page.tsx:551-553 | with no expense carrying the id, the list is unchanged |
| ListUpdates.UpdateByIdTwice | app/expenses/page.tsx:718-735 | two rewrites of the same id in a row equal one rewrite by their composition |
| ListUpdates.RemoveByIdSpec | app/expenses/page.tsx:793 | deleting keeps every expense with another id as often and in the same order, and keeps none with the id |
| ListUpdates.FindById | app/expenses/page.tsx:878 | the lookup returns the first expense with the id, or nothing when none has it |
| ListUpdates.MarkSubtasks | app/expenses/page.tsx:524-529 | marking paid makes every sub-expense done and changes nothing but done flags; marking pending leaves the list as it was |
| ListUpdates.MarkPaidStatus | app/expenses/page.tsx:522-531 | marking paid with the sub-expenses updated makes them all done, so the expense stays paid by the rule even if its flag is cleared later; after marking pending the expense is paid exactly when it has sub-expenses and all are done |
| ListUpdates.SetSubtaskDone | app/expenses/page.tsx:692-694 | only the sub-expense with the id takes the new flag; the others keep theirs |
| ListUpdates.SetSubtaskDoneMonotone | app/expenses/page.tsx:692-694 | setting a flag only adds done flags; clearing it only removes them |
| ListUpdates.NewPaidStatus | app/expenses/page.tsx:711-716 | the parent becomes paid when it was unpaid and all sub-expenses are done; otherwise its flag is unchanged, and it never goes from paid to unpaid |
| ListUpdates.NewPaidStatusAgrees | app/expenses/page.tsx:711-716 | for a non-empty list the stored flag is set exactly when it was set or the paid rule holds for the toggled list, so storing it does not change whether the parent is paid |
| ListUpdates.ToggleFollowUpRedundant | app/expenses/page.tsx:718-732 | the follow-up paid-status write after a toggle changes nothing in the list |
| ListUpdates.RemoveSubtaskSpec | app/expenses/page.tsx:745-747 | deleting removes exactly the sub-expenses with the id and keeps the rest in order |
| ListUpdates.RemoveSubtaskAllDone | app/expenses/page.tsx:745-747 | removing from an all-done list leaves it all done |
| ListUpdates.EditSubtask | app/expenses/page.tsx:891-902 | only the sub-expense with the id takes the edited fields, and every done flag is kept |
| ListUpdates.EditSubtaskKeepsStatus | app/expenses/page.tsx:891-902 | editing a sub-expense never changes whether its parent is paid |
| ListUpdates.FindEmployeeName | app/expenses/page.tsx:648-650 | the name of the first employee with the id, or nothing |
| ListUpdates.NewSubtask | app/expenses/page.tsx:642-651 | the new sub-expense has a trimmed title, is done exactly when the parent is paid, carries the amount as `Number` reads it, has an employee id exactly when one was chosen, and then that employee's looked-up name |
| ListUpdates.AddSubtaskStatus | app/expenses/page.tsx:654-656 | after the new sub-expense is put first and the flag cleared, the parent is paid exactly when it was paid and all earlier sub-expenses were done |
| ListUpdates.AddSubtaskTotal | app/expenses/page.tsx:654 | the new sub-expense adds its amount to the parent's total |
| ExpensesPage.AddExpenseRequest | app/expenses/page.tsx:562-584 | refused with the required-fields warning when description, amount or date is missing, then with the manager warning when a manager has no employee; otherwise the payload carries the trimmed texts, `Number(amount)`, the date and its week start, the role, the chosen employee id (null when none is chosen) and its looked-up name (the empty string when none is chosen; left out when the id is unknown) |
| ExpensesPage.AddedExpenseSpec | app/expenses/page.tsx:604-611 | after adding, the list is date-sorted and holds the old expenses plus the created one |
| ExpensesPage.AddedExpenseKeepsOrder | app/expenses/page.tsx:604-611 | adding keeps the order of the old expenses among themselves |
| ExpensesPage.EditExpenseRequest | app/expenses/page.tsx:816-839 | refused exactly when the role is manager and no employee is chosen; otherwise the updates hold the typed fields, `Number(amount)`, and the chosen employee id; with no employee both id and name are null, a known id sends its name, and an unknown id leaves the name out so the stored one is kept |
| ExpensesPage.SubtaskEditFor | app/expenses/page.tsx:884-902 | an empty employee becomes undefined; otherwise the employee name is looked up |
| ExpensesPage.EditedSubtaskList | app/expenses/page.tsx:876-925 | nothing when the parent is missing; otherwise, position by position, each expense with the parent id becomes itself with the first such expense's sub-expenses edited (the one with the sub-expense id takes the form's fields), and every other expense is unchanged |
| ExpensesPage.InitialHistory | app/expenses/page.tsx:220-247 | the server's list when it is a non-empty array; otherwise one entry holding the default budget |
| ExpensesPage.BudgetAfterSave | app/expenses/page.tsx:448-449 | after a new entry is put in front, the budget is the entered amount, except that 0 reads back as the default |
| ExpensesPage.Page.constructor | app/expenses/page.tsx:140-200 | the first render: empty lists, no filters, the current month as period, five rows |
| ExpensesPage.Page.Visible | app/expenses/page.tsx:393-396 | the visible rows are a prefix of the filtered list of the state's length |
| ExpensesPage.Page.Budget | app/expenses/page.tsx:152-153 | the current budget, never 0 |
| ExpensesPage.Page.Stats | app/expenses/page.tsx:308-335 | the wallet figures of the current state |
| ExpensesPage.Page.ReceiveExpenses | app/expenses/page.tsx:249-288 | the fetched list is stored in ascending date order, and nothing else changes |
| ExpensesPage.Page.ReceiveEmployees | app/expenses/page.tsx:289-305 | only the employee list changes |
| ExpensesPage.Page.ReceiveInitialHistory | app/expenses/page.tsx:220-247 | only the history changes, to the server's list or the default entry |
| ExpensesPage.Page.SetFilters | app/expenses/page.tsx:471-482 | changed filters reset the row count to five; the same filters keep it |
| ExpensesPage.Page.SetBudgetPeriodStart | app/expenses/page.tsx:471-482 | a changed period start resets the row count to five |
| ExpensesPage.Page.LoadMoreRows | app/expenses/page.tsx:461-469 | the count grows by at most ten, never past the filtered list, and the old view is a prefix of the new one |
| ExpensesPage.Page.UpdatePaidStatus | app/expenses/page.tsx:510-558 | cancelled, failed or done; when done, the expense with the id is replaced by the caller's copy carrying the new flag and, when asked, the marked sub-expenses |
| ExpensesPage.Page.UpdateSubtaskStatus | app/expenses/page.tsx:687-738 | on success the parent takes the toggled list and the new flag, and nothing else in the list changes |
| ExpensesPage.Page.AddSubtask | app/expenses/page.tsx:634-686 | with no open form nothing happens; a blank title or amount is warned about; on success the parent gets the new sub-expense first and its flag cleared |
| ExpensesPage.Page.DeleteSubtask | app/expenses/page.tsx:739-774 | on a confirmed success the parent keeps every sub-expense with another id |
| ExpensesPage.Page.DeleteExpense | app/expenses/page.tsx:775-799 | on a confirmed success every expense with the id leaves the list |
| ExpensesPage.Page.AddExpense | app/expenses/page.tsx:560-625 | a checked form is sent; on success the created record joins the list, which is sorted by date again |
| ExpensesPage.Page.SaveEditExpense | app/expenses/page.tsx:813-864 | nothing without an edited expense; a refused request is not sent; on success the stored record replaces the expense with its id |
| ExpensesPage.Page.SaveEditSubtask | app/expenses/page.tsx:876-932 | nothing without an edit; an error when the parent is missing; on success the edited list is stored |
| ExpensesPage.Page.UpdateInitialAmount | app/expenses/page.tsx:425-459 | NaN or negative input is refused; an amount equal to the head's is not sent; otherwise a stored entry goes first in the history |
| ExpensesApi.NormalizedSub | app/api/expenses/route.ts:29-76 | the entry is dropped exactly when its trimmed title is empty; otherwise it holds that title, the given id when it is a non-empty string (else a fresh one), and the coerced done flag |
| ExpensesApi.NormalizedSubDrops | app/api/expenses/route.ts:30-31 | the entry is dropped exactly when it is a non-null value without a non-blank string title |
| ExpensesApi.NormalizeSubExpense | app/api/expenses/route.ts:29-76 | the method that fills a fresh object field by field computes exactly the normalised entry |
| ExpensesApi.NormalizedSubOptional | app/api/expenses/route.ts:40-73 | the amount is present exactly when the raw one is defined and not NaN after coercion; date, employee id and employee name are present only when non-empty |
| ExpensesApi.NormalizeAllSpec | app/api/expenses/route.ts:78-83 | the list normaliser throws exactly when some entry is null or undefined; otherwise it keeps the normalised entries in input order, never more than the input |
| ExpensesApi.NormalizeAllKeeps | app/api/expenses/route.ts:78-83 | when nothing throws, the list is the sub-expenses of the kept entries in input order, none of the dropped entries |
| ExpensesApi.KeptSubsMembers | app/api/expenses/route.ts:78-83 | a sub-expense is in the kept list exactly when some entry normalises to it |
| ExpensesApi.NormalizeSubExpenses | app/api/expenses/route.ts:78-83 | a non-array gives the empty list |
| ExpensesApi.BaseAmount | app/api/expenses/route.ts:86-89 | a number is kept; anything else becomes `Number(v)`, with NaN as 0 |
| ExpensesApi.ComputeExpenseTotal | app/api/expenses/route.ts:85-100 | the base amount plus every valid sub-expense amount, with invalid ones counting 0 |
| ExpensesApi.ComputeExpenseTotalMatchesPage | app/api/expenses/route.ts:85-100 | for a stored expense the server's total is the page's full total |
| ExpensesApi.DedupeShops | app/api/expenses/route.ts:102-114 | the loop returns each non-empty trimmed shop exactly once, in first-use order, and the same list as the page's suggestions |
| ExpensesRoutes.ReadPostBody | app/api/expenses/route.ts:164-194 | reading throws exactly for a null body or a null sub-expense entry; otherwise the description is the trimmed string (else ""), the amount `Number(amount)`, date and week start the strings (else ""), the shop `String(shop)` untrimmed ("" when null or absent), the role the trimmed known role (else other), the employee id `String(id)` (absent when null), the employee name trimmed when a string (absent otherwise), and the normalised sub-expenses |
| ExpensesRoutes.Post | app/api/expenses/route.ts:162-250 | a 500 exactly when reading throws; a created expense has status 201, the store's id, the paid flag clear, non-empty texts, an amount of at least 0, and a named employee when it is a manager's; the created expense holds exactly the read fields |
| ExpensesRoutes.PostChecks | app/api/expenses/route.ts:196-235 | invalid fields are reported first, then a manager without employee id and name; the request succeeds exactly when both checks pass |
| ExpensesRoutes.PostSubtasks | app/api/expenses/route.ts:194 | a created expense carries the normalised sub-expenses, each in stored form |
| ExpensesRoutes.PutCriteriaOf | app/api/expenses/route.ts:258-279 | a null body throws; a truthy weekStart wins; otherwise a non-empty ids array; otherwise the 400 message |
| ExpensesRoutes.MarkSelected | app/api/expenses/route.ts:270-279 | the same ids; each selected unpaid expense gets its flag set and every other expense is unchanged |
| ExpensesRoutes.Put | app/api/expenses/route.ts:252-300 | a refusal or a crash leaves the store unchanged; success is status 200 with the number of changed expenses and the marked store |
| ExpensesRoutes.PutMarksPaid | app/api/expenses/route.ts:270-287 | after a PUT every selected expense is paid and the others are unchanged; an expense is paid exactly when it was paid or was selected |
| ExpensesRoutes.PutIdempotent | app/api/expenses/route.ts:270-287 | a second identical PUT changes nothing and reports 0 modified |
| ExpensesRoutes.TextField | app/api/expenses/route.ts:358-362 | a falsy value gives ""; a string gives its trim |
| ExpensesRoutes.PatchAmount | app/api/expenses/route.ts:351-354 | the amount is kept only when `Number(v)` is a number of at least 0 |
| ExpensesRoutes.PatchRole | app/api/expenses/route.ts:372-377 | the role read as the route reads it; any name other than a known role becomes Other |
| ExpensesRoutes.PatchRoleName | app/api/expenses/route.ts:372-377 | a role sent as its own name is read back as that role |
| ExpensesRoutes.PatchEmployeeId | app/api/expenses/route.ts:378-383 | "" and null become null; anything else becomes its string form |
| ExpensesRoutes.PatchEmployeeName | app/api/expenses/route.ts:363-368 | null stays null; anything else becomes its trimmed string form |
| ExpensesRoutes.WhitelistedName | app/api/expenses/route.ts:329-345 | each whitelisted field is recognised by its own name, and only those names are |
| ExpensesRoutes.PayloadAfterSpec | app/api/expenses/route.ts:342-388 | running the loop over the keys gives the payload of the whitelisted fields they touch; it throws exactly when the sub-expenses are touched and hold a null entry |
| ExpensesRoutes.BuildPayload | app/api/expenses/route.ts:342-388 | the `for` loop with its `switch` computes exactly the payload of the update object, or the throw |
| ExpensesRoutes.PayloadAfterThrows | app/api/expenses/route.ts:355-357 | a throw part-way through the loop ends the whole request |
| ExpensesRoutes.ApplyPayload | app/api/expenses/route.ts:439-444 | the `$set` replaces each field the payload holds and keeps every other field |
| ExpensesRoutes.PatchStored | app/api/expenses/route.ts:415-452 | a refused manager update gives 400 and leaves the store unchanged; otherwise 200 with the updated expense stored under its id |
| ExpensesRoutes.PatchRefusals | app/api/expenses/route.ts:304-411 | the early checks in order: a missing id or updates object gives 400; an invalid id gives 400; an empty payload gives 400; a missing expense gives 404 |
| ExpensesRoutes.PatchAfterChecks | app/api/expenses/route.ts:413-452 | once the early checks pass, the manager check alone decides between 400 and the update |
| ExpensesRoutes.PatchSucceeded | app/api/expenses/route.ts:302-472 | a successful PATCH had an object of updates, a non-empty payload and a stored expense, and it stores that expense with the payload applied |
| ExpensesRoutes.PayloadOnlyTouched | app/api/expenses/route.ts:342-388 | a field whose key the update does not carry keeps its stored value, and the id never changes |
| ExpensesRoutes.PayloadAmountKept | app/api/expenses/route.ts:351-354 | a non-negative stored amount stays non-negative; a valid sent amount is stored; an invalid one is ignored |
| ExpensesRoutes.PatchManagerLoophole | app/api/expenses/route.ts:416-436 | as written, setting role manager with employeeId "" on an expense without an employee succeeds and stores a manager with no employee |
| ExpensesRoutes.PatchIntendedNamesEmployee | app/api/expenses/route.ts:416-436 | with the check its error message describes, every successful update to manager leaves the expense with an employee id |
| ExpensesRoutes.DeleteId | app/api/expenses/route.ts:486-502 | a non-empty trimmed body id is preferred, then the trimmed query id, otherwise none |
| ExpensesRoutes.Delete | app/api/expenses/route.ts:482-543 | no id gives 400; an invalid id gives 400; a missing one gives 404; otherwise 200 with the deleted expense, removed from the store |
| ExpensesRoutes.DeleteRemovesOne | app/api/expenses/route.ts:521-535 | a successful DELETE removes exactly the expense with the id and leaves every other one as it was |
| InitialAmountApi.BodyAmountIsNumber | app/api/initial-amount/route.ts:42-43 | a number is used as is and anything else goes through `Number`, so the amount is always `Number(body.amount)` |
| InitialAmountApi.BodyDate | app/api/initial-amount/route.ts:44 | the date is non-empty exactly when the body holds a non-empty string date |
| InitialAmountApi.PostInitialAmount | app/api/initial-amount/route.ts:38-80 | a 500 exactly for a null body; failures are 400 with one of the two messages; a created entry has status 201, an amount of at least 0 matching the body, and the body's date |
| InitialAmountApi.PostInitialAmountOutcomes | app/api/initial-amount/route.ts:46-65 | an invalid amount is reported whatever the date; a valid amount with a missing or non-string date is refused for the date; otherwise the entry holds exactly the validated values |
| InitialAmountApi.PageEntryAccepted | app/expenses/page.tsx:428-438 | the entry the expenses page sends is stored as sent whenever its time is non-empty |
| Dashboard.SumAmountsSplit | app/dashboard/page.tsx:88-95 | splitting the expenses by a test and its negation splits the total volume |
| Dashboard.DashStatsSnoc | app/dashboard/page.tsx:88-95 | one more expense adds its amount (0 when missing) to the total, adds it to the approved volume only when approved, and adds one to the pending count only when pending |
| Dashboard.ApprovedWithinTotal | app/dashboard/page.tsx:89-92 | approved volume plus the other expenses' volume is the total; with no negative amounts, 0 ≤ approved ≤ total |
| Dashboard.PendingCountBounds | app/dashboard/page.tsx:93 | the pending count is at most the number of expenses, and zero exactly when none is pending |
| Dashboard.ExpensesFrom | app/dashboard/page.tsx:47 | an array response gives its items; anything else gives [] |
| Dashboard.EmployeesAfter | app/dashboard/page.tsx:49-54 | an array is the list; an object gives the first truthy of employees, data, users, else []; any other value keeps the previous list |
| Dashboard.EmployeesAfterObject | app/dashboard/page.tsx:51-53 | an object response always gives a truthy list |
| Dashboard.AmountDefault | app/dashboard/page.tsx:72 | an empty amount is sent as 0; any other as `Number` reads it |
| Dashboard.AmountDefaultIsNumber | app/dashboard/page.tsx:72 | the default matches what `Number("")` gives anyway |
| Dashboard.AmountDefaultRoundTrip | app/dashboard/page.tsx:72 | an amount typed as a printed integer is sent as that integer |

## Left out

- Rendering, toasts, `window.confirm`, the download link and the scroll listener are left out. A confirmation, a server reply or a lookup result is a method parameter; only the state changes are modelled.
- The `fetch` calls and their JSON parsing are left out. A failed request or response is one `Reply` case, and a failed parse is not told apart from other failures.
- Floating-point amounts are not modelled: amounts are integers. `toFixed(2)` prints an integer with ".00". `toLocaleString` is not modelled.
- `Number(s)` reads only an optional sign followed by digits, after trimming. Decimals, exponents, hexadecimal and `Infinity` are read as NaN.
- `toLowerCase` folds ASCII letters only. The string order is by character code, which agrees with JavaScript's UTF-16 order for characters in the Basic Multilingual Plane.
- `formatDate`, `getWeekStart`, `getMonthStart`, the clock and `Math.random` ids are parameters, because they depend on `Date`, time zones and randomness.
- MongoDB is a map from id to expense. Left out with it:
  - Mongoose casting and schema validation;
  - `ensureConnected` and the connection cache;
  - timestamps;
  - the 404 of PATCH when the update finds no document (app/api/expenses/route.ts:445-451), which only a concurrent delete can cause;
  - every 500 from a database error.
- `mongoose.Types.ObjectId.isValid` is a parameter.
- ExpensesRoutes.MarkSelected: `weekStart` is compared as its string form. An id matches when the ids array holds it as a string; cast errors are not modelled.
- ExpensesRoutes.Put: the final "No valid update criteria" 400 (app/api/expenses/route.ts:289-292) is left out, because the earlier check makes it unreachable.
- The GET handlers of both APIs only read the store, so they are not modelled. The same goes for the authentication middleware, the login, users and approve routes, and the legacy app/expenses/types.ts and app/expenses/utils.ts.
- ExpenseViews.HistorySpec: the history comparator `a.date < b.date ? 1 : -1` is not consistent for equal dates. The model sorts newest first and keeps equal dates in input order, which is one of the orders an engine may produce.
- Sub-expense amounts on the page can be NaN, but expense base amounts are integers: the server refuses NaN on create and ignores it on update.
- An absent sub-expense list is the empty list, as every use reads `subtasks \|\| []`.
- The dashboard's add form, apart from the amount default, is not modelled, because it calls a legacy route that is not part of this model.

## Findings

| source | as written | input that shows it | evidently intended | confidence | as-written member | corrected member |
|---|---|---|---|---|---|---|
| app/api/expenses/route.ts:416-436 | the manager check refuses an update only when `updates.employeeId` is null or absent | PATCH `{"id": <stored id>, "updates": {"role": "manager", "employeeId": ""}}` on an expense with no employee id: the payload's employeeId becomes null, the check passes, and a manager without an employee is stored | a manager update is refused whenever the resulting payload names no employee and the stored expense has none, as the error message says | not executed | ExpensesRoutes.PatchManagerLoophole | ExpensesRoutes.PatchIntendedNamesEmployee |
