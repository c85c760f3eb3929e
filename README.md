# finance-flow in Dafny

A model of the bookkeeping core of finance-flow, a personal-finance web app. It covers:

- the ledger of transactions and the single account balance that each addition and deletion moves;
- the rule that assigns late-month income to the next budgeting month;
- the fixed category taxonomy and its lookup;
- the figures the views derive from the ledger: per-category budgets and spending, the category drill-down, monthly totals and savings, the filtered and sorted transaction table, the per-day cash-flow bars, the card carousel's selection and stacking, and the wallet total.

Modelling choices:

- Money is `real`. A date is a triple `Date(year, month0, day)`, as the local-time getters of a JavaScript `Date` report it.
- A JavaScript object used as a dictionary (`CategoryBudget`) is a list of properties in insertion order. JavaScript reports that order only for keys that are not integer-like; no category id is integer-like, and the only use of the order is a sum.
- The array methods `filter`, `find`, `findIndex`, `reduce` and `reverse` are functions in module `Seqs`.

Modules follow the source files:

| module | source file |
|---|---|
| `Types` | `src/types/finance.ts` |
| `Finance` | `src/utils/finance.ts` |
| `Categories` | `src/utils/categories.tsx` |
| `FinanceHook` | `src/hooks/useFinanceData.tsx` |
| `BudgetView` | `src/components/BudgetView.tsx` |
| `CategoriesView` | `src/components/CategoriesView.tsx` |
| `DashboardView` | `src/components/DashboardView.tsx` |
| `TransactionsView` | `src/components/TransactionsView.tsx` |
| `CashFlowChart` | `src/components/CashFlowChart.tsx` |
| `CardsCarousel` | `src/components/CardsCarousel.tsx` |
| `WalletSummary` | `src/components/WalletSummary.tsx` |

`Optional`, `Seqs` and `Calendar` are shared helpers. `Calendar` holds the date triple, the Gregorian month lengths and the date order.

How the state is represented:

- The provider's `useState` record is the class `FinanceHook.FinanceProvider`. Its methods apply pure updater functions, as `setData(prev => ...)` does.
- The budget editor's `localBudgets`/`hasChanges` state is the class `BudgetView.BudgetEditor`.
- The carousel's `activeCardId` and form state is the class `CardsCarousel.Carousel`.
- The cash-flow chart fills arrays in place, so it is an imperative method over `array<real>`.

## Model

| member | source | states |
|---|---|---|
| Finance.GetEffectiveMonth | src/utils/finance.ts:5-19 | for a month in 0..11 the effective month is in 0..11 and lies exactly one month after the calendar month for income dated on or after day 25, and in the calendar month otherwise |
| Finance.ExpenseKeepsCalendarMonth | src/utils/finance.ts:6-10 | an expense keeps its calendar month and year whatever the day |
| Finance.EarlyIncomeKeepsCalendarMonth | src/utils/finance.ts:3-10 | income dated before day 25 keeps its calendar month and year |
| Finance.LateIncomeMovesToNextMonth | src/utils/finance.ts:10-11 | income on day 25 or later in months 0..10 counts toward month+1 of the same year |
| Finance.LateDecemberIncomeRollsOver | src/utils/finance.ts:10-15 | income on day 25 or later in December counts toward January of the next year |
| Finance.FilterTransactionsByMonth | src/utils/finance.ts:21-26 | a transaction is in the result exactly when it is in the input and its effective (month, year) is the one asked for |
| Finance.FilterByMonthIsSubsequence | src/utils/finance.ts:21-26 | the result keeps the input's order (an order-preserving subsequence) |
| Finance.EachTransactionInExactlyOneMonth | src/utils/finance.ts:21-26 | every transaction is selected for its effective month and for no other (month, year) |
| Types.BudgetLookup | src/types/finance.ts:25-27 | a lookup finds nothing exactly when the key is absent, and what it finds is a property of the object |
| Types.DefaultBudgetsMatchMonthlyBudget | src/types/finance.ts:43-57 | the twelve default category ceilings add up to 2000, the default monthly budget |
| Types.DefaultBudgetsPositive | src/types/finance.ts:46-57 | every default ceiling is strictly positive |
| Types.DefaultBudgetsDistinct | src/types/finance.ts:45-58 | no category appears twice among the default ceilings |
| Types.DefaultBudgetKeys | src/types/finance.ts:46-57 | the default ceilings are keyed by the twelve names in source order |
| Categories.AllItems | src/utils/categories.tsx:9-57 | an item is in the flattened list exactly when it is in one of the groups |
| Categories.GroupLayout | src/utils/categories.tsx:9-57 | three groups, income, expense and savings in that order, holding 4, 12 and 4 items |
| Categories.CategoryIdsUnique | src/utils/categories.tsx:16-55 | no item id occurs twice across the three groups |
| Categories.AllCategoryIdsListed | src/utils/categories.tsx:9-57 | the item ids, group after group, are the twenty listed ids in order |
| Categories.LookupInGroups | src/utils/categories.tsx:60-63 | an item found by the group-by-group search carries the requested id |
| Categories.LookupIsFirstMatch | src/utils/categories.tsx:60-63 | searching group by group and stopping at the first hit finds the first matching item of the concatenated groups |
| Categories.GetCategoryInfo | src/utils/categories.tsx:59-65 | the loop returns the item the first-match search finds, or the fallback named after the id; either way its id is the argument |
| Categories.ListedIdFound | src/utils/categories.tsx:60-62 | for a listed id the result is an item of the taxonomy with that id |
| Categories.UnlistedIdFallsBack | src/utils/categories.tsx:64 | for an unlisted id the result is the fallback whose id and label are the id |
| Categories.DefaultBudgetsCoverExpenseCategories | src/types/finance.ts:45-58 | the default ceilings are keyed by exactly the twelve expense item ids, once each |
| FinanceHook.WithTransaction | src/hooks/useFinanceData.tsx:45-55 | the transaction is appended at the end, the balance moves by +amount for income and -amount otherwise, and no other field changes |
| FinanceHook.WithoutTransaction | src/hooks/useFinanceData.tsx:60-72 | every transaction with the id is removed; the others are kept in their order and with their number of copies; an absent id leaves the record unchanged; otherwise the balance reverses the first match once; no other field changes |
| Seqs.FilterMultiplicity | src/hooks/useFinanceData.tsx:70 | `filter` keeps every copy of an element that passes and no copy of one that fails |
| FinanceHook.FinanceProvider.constructor | src/hooks/useFinanceData.tsx:17 | the provider starts from the initial record |
| FinanceHook.FinanceProvider.AddTransaction | src/hooks/useFinanceData.tsx:44-57 | the new record is the add updater applied to the old one, and the ledger invariant (balance = signed sum of transactions) is preserved |
| FinanceHook.FinanceProvider.DeleteTransaction | src/hooks/useFinanceData.tsx:59-74 | the new record is the delete updater applied to the old one; with unique ids, the ledger invariant and the uniqueness are preserved |
| FinanceHook.FinanceProvider.UpdateSettings | src/hooks/useFinanceData.tsx:76-78 | the new record is the shallow merge of the patch over the old one |
| FinanceHook.FinanceProvider.ResetData | src/hooks/useFinanceData.tsx:80-81 | the record becomes the initial record whatever it was |
| FinanceHook.InitialIsBalanced | src/types/finance.ts:39-60 | the initial record has balance 0, no transactions and no cards, and satisfies the ledger invariant |
| FinanceHook.AddKeepsBalanced | src/hooks/useFinanceData.tsx:44-57 | adding a transaction preserves the ledger invariant |
| FinanceHook.AddKeepsUniqueIds | src/hooks/useFinanceData.tsx:51-55 | adding a transaction with a new id keeps ids unique |
| FinanceHook.DeleteKeepsBalanced | src/hooks/useFinanceData.tsx:59-74 | with unique ids, deleting preserves the ledger invariant and the uniqueness |
| FinanceHook.DeleteDrift | src/hooks/useFinanceData.tsx:61-71 | deleting moves the gap between balance and signed sum by the signed sum of all matches minus the first match's signed amount |
| FinanceHook.SharedIdDeleteBreaksBalance | src/hooks/useFinanceData.tsx:61-71 | an example of the drift `DeleteDrift` states in general: with two transactions sharing an id, deleting that id breaks the ledger invariant when the second one's amount is not zero |
| FinanceHook.AddThenDeleteRestores | src/hooks/useFinanceData.tsx:44-74 | adding a transaction with a fresh id and deleting that id restores the previous record |
| FinanceHook.MergeSettings | src/hooks/useFinanceData.tsx:76-78 | each field given in the patch is overwritten and each absent field kept |
| FinanceHook.MergeIdempotent | src/hooks/useFinanceData.tsx:76-78 | applying the same patch twice equals applying it once |
| BudgetView.SetBudget | src/components/BudgetView.tsx:28-31 | the new property is present afterwards, and the object grows by at most one property |
| BudgetView.SetBudgetLookup | src/components/BudgetView.tsx:28-31 | after the update the key reads back the new value and every other key reads as before |
| BudgetView.SetBudgetKeys | src/components/BudgetView.tsx:28-31 | the keys after the update are the old keys plus the key |
| BudgetView.SetBudgetSize | src/components/BudgetView.tsx:28-31 | the object grows by one property exactly when the key was new, and keeps its size otherwise |
| BudgetView.BudgetEditor.constructor | src/components/BudgetView.tsx:13-15 | the editor starts with no ceilings and no pending changes |
| BudgetView.BudgetEditor.SyncFromData | src/components/BudgetView.tsx:18-22 | the editor copies the saved ceilings |
| BudgetView.BudgetEditor.HandleBudgetChange | src/components/BudgetView.tsx:24-33 | an input that is not a number, or is negative, changes nothing; a valid one sets exactly that ceiling and marks changes pending; ceilings stay non-negative |
| BudgetView.BudgetEditor.HandleSave | src/components/BudgetView.tsx:35-40 | the provider's record becomes the merge of `{ categoryBudgets: localBudgets }` and nothing is pending afterwards |
| BudgetView.SetBudgetKeepsNonNegative | src/components/BudgetView.tsx:26-30 | writing a non-negative ceiling keeps all ceilings non-negative |
| BudgetView.SetBudgetKeepsWellFormed | src/components/BudgetView.tsx:28-31 | the update never creates a repeated property |
| BudgetView.TotalBudget | src/components/BudgetView.tsx:45 | the total of the ceilings is never negative when no ceiling is |
| BudgetView.SetBudgetTotal | src/components/BudgetView.tsx:45 | the total of the ceilings moves by the new value minus the old one (0 if none) |
| BudgetView.GetCurrentSpending | src/components/BudgetView.tsx:48-61 | a category's spending is 0 when no transaction of the ledger has that category and the current effective month, and never negative when the counted amounts are not |
| BudgetView.SpendingAppend | src/components/BudgetView.tsx:48-61 | one more transaction adds its full amount to a category's spending exactly when its category matches and its effective month is the current one, whatever its type |
| BudgetView.GroupsToDisplay | src/components/BudgetView.tsx:43 | the displayed groups are the expense group and then the savings group; the income group is not displayed |
| BudgetView.DisplayedItems | src/components/BudgetView.tsx:43 | the displayed groups' items are the expense items followed by the savings items |
| BudgetView.TotalSpent | src/components/BudgetView.tsx:63-65 | the per-item spending summed over the displayed items equals one sum over the ledger: the amounts of the transactions of the current effective month whose category is an expense or savings item, each counted once |
| BudgetView.SpendingOverIsFilteredSum | src/components/BudgetView.tsx:63-65 | over items with distinct ids, the per-item spending adds up to the sum of the amounts of the month's transactions whose category is one of the items |
| BudgetView.TotalSpentAppend | src/components/BudgetView.tsx:63-65 | one more transaction adds its amount to `totalSpent` exactly when its category is an expense or savings item id and its effective month is the current one |
| BudgetView.SpendingOverAppend | src/components/BudgetView.tsx:63-65 | over items with distinct ids, one more transaction is counted at most once |
| BudgetView.GetItemProgress | src/components/BudgetView.tsx:138-142 | a missing ceiling counts as 0; with a positive ceiling the raw percentage is spent / ceiling * 100, otherwise 0; the bar is the raw percentage capped at 100, at least 0 for non-negative spending, and full exactly when spending reaches a positive ceiling; over budget exactly when spent > ceiling |
| CategoriesView.GetCategoryTransactions | src/components/CategoriesView.tsx:21-33 | with no selection nothing is listed; otherwise a transaction is listed exactly when it has the selected id and the current effective month |
| CategoriesView.TotalAmount | src/components/CategoriesView.tsx:36 | an empty list totals 0, and the total is never negative when no listed amount is |
| CategoriesView.NothingSelectedIsEmpty | src/components/CategoriesView.tsx:22-36 | with no selection the list is empty and the total is 0 |
| CategoriesView.ListIsSubsequence | src/components/CategoriesView.tsx:27 | the list keeps the ledger's order |
| CategoriesView.ListRefinesMonthFilter | src/components/CategoriesView.tsx:27-31 | the list equals the month filter of the ledger restricted to the selected category |
| CategoriesView.TotalIsBudgetSpending | src/components/CategoriesView.tsx:36 | the total equals the budget view's spending for the same item and month, income and expense alike |
| DashboardView.MonthlyTransactions | src/components/DashboardView.tsx:31-34 | a transaction is selected exactly when its calendar month and year are the current ones |
| DashboardView.TotalOfType | src/components/DashboardView.tsx:31-42 | filtering by month and then by type and summing equals summing the transactions that are of the month and of the type in one filter; never negative for non-negative amounts |
| DashboardView.TotalIncome | src/components/DashboardView.tsx:36-38 | `totalIncome` is the sum of the amounts of the income transactions of the calendar month; never negative for non-negative amounts |
| DashboardView.TotalExpenses | src/components/DashboardView.tsx:40-42 | `totalExpenses` is the sum of the amounts of the expense transactions of the calendar month; never negative for non-negative amounts |
| DashboardView.TotalOfTypeSnoc | src/components/DashboardView.tsx:36-42 | one more transaction adds its amount to its type's monthly total exactly when it is in the calendar month |
| DashboardView.TotalsCoverMonth | src/components/DashboardView.tsx:36-42 | income plus expenses is the sum over all of the month's transactions |
| DashboardView.DashboardUsesCalendarMonth | src/components/DashboardView.tsx:31-34 | a late-month income counts in its calendar month on the dashboard although its effective month is the next one |
| DashboardView.Savings | src/components/DashboardView.tsx:44 | savings are never negative, at least income minus expenses, and either 0 or exactly that difference |
| DashboardView.RecentTransactions | src/components/DashboardView.tsx:196 | at most five entries, the last ones of the ledger, most recently appended first |
| DashboardView.RecentAfterAdd | src/components/DashboardView.tsx:196 | after an addition the new transaction heads the list, followed by the previous head entries |
| DashboardView.GetCategoryIcon | src/components/DashboardView.tsx:271-293 | a mapped key gives its icon, any other key the money bag, and the result is never empty |
| DashboardView.IconsCoverIncomeAndExpenseItems | src/components/DashboardView.tsx:272-292 | every income and expense item id has its own icon; the savings ids fall back to the money bag |
| DashboardView.GoalProgress | src/components/DashboardView.tsx:240 | the width never exceeds 100; it is NaN exactly for a zero goal with zero savings; for a positive goal it is at least 0, equals savings / goal * 100 while savings are below the goal, and is full exactly when savings reach the goal |
| TransactionsView.ToLower | src/components/TransactionsView.tsx:20-21 | same length; each ASCII capital becomes its small letter, every other character is kept |
| TransactionsView.Includes | src/components/TransactionsView.tsx:20-21 | true exactly when the needle occurs at some position of the haystack |
| TransactionsView.Matches | src/components/TransactionsView.tsx:16-23 | a row passes exactly when the month selector is 'all' or names its month index, the type selector is 'all' or names its type, and the lower-cased term occurs in its lower-cased description or category |
| TransactionsView.FilteredTransactions | src/components/TransactionsView.tsx:16-24 | each row passing the filters is shown as many times as it occurs in the ledger, and no other row is shown |
| TransactionsView.ShownAreExactlyTheMatches | src/components/TransactionsView.tsx:16-24 | the table is a permutation of the rows passing the month, type and search filters, sorted newest first, and a row is shown exactly when it passes |
| TransactionsView.Insert | src/components/TransactionsView.tsx:24 | insertion adds exactly the one row |
| TransactionsView.InsertKeepsSorted | src/components/TransactionsView.tsx:24 | inserting into a newest-first list keeps it newest first |
| TransactionsView.SortNewestFirst | src/components/TransactionsView.tsx:24 | the sort is a permutation of its input |
| TransactionsView.SortIsNewestFirst | src/components/TransactionsView.tsx:24 | the sort's output is ordered newest first |
| TransactionsView.EmptySearchMatchesEverything | src/components/TransactionsView.tsx:20-21 | the empty search term matches every text |
| TransactionsView.SearchIgnoresCase | src/components/TransactionsView.tsx:20-21 | a search term and its lower-case form select the same rows |
| TransactionsView.MonthFilterIgnoresYear | src/components/TransactionsView.tsx:18 | the month filter compares the month index only; moving a row to another year does not change whether it passes |
| TransactionsView.NoFilterShowsAll | src/components/TransactionsView.tsx:16-24 | with both filters on 'all' and an empty search the table is a permutation of the whole ledger |
| CashFlowChart.Column | src/components/CashFlowChart.tsx:36-39 | the column of a month has one bar per day |
| CashFlowChart.ColumnAt | src/components/CashFlowChart.tsx:41-51 | bar `i` is the total of that type's amounts on day `i+1` of the month |
| CashFlowChart.BuildChartData | src/components/CashFlowChart.tsx:29-55 | the three arrays are new and have one entry per day of the month; the income and expense arrays hold the per-day totals; each savings entry is max(0, income - expense) of its day |
| CashFlowChart.AddTransactions | src/components/CashFlowChart.tsx:41-51 | starting from zero-filled arrays, the loop leaves each day's income and expense totals in place |
| CashFlowChart.AddTransaction | src/components/CashFlowChart.tsx:42-50 | one transaction of the month adds its amount to its day's income bar if income, else to its expense bar |
| CashFlowChart.AddToBar | src/components/CashFlowChart.tsx:44-48 | `bars[day] += t.amount` for a transaction of the month and type turns the bars of the ledger so far into the bars of the ledger with it |
| CashFlowChart.DayTotalSnoc | src/components/CashFlowChart.tsx:41-51 | one more transaction adds its amount to the total of its own day, month, year and type, and to no other |
| CashFlowChart.FillSavings | src/components/CashFlowChart.tsx:53-55 | after the loop each day's savings bar is max(0, income - expense) of that day |
| CashFlowChart.ColumnSnoc | src/components/CashFlowChart.tsx:43-49 | one more transaction changes only the bar of its own day, and only when it is of the chart's month, year and type |
| CashFlowChart.ChartMatchesDashboard | src/components/CashFlowChart.tsx:41-51 | with valid dates the income bars sum to the dashboard's `totalIncome` and the expense bars to its `totalExpenses` |
| CashFlowChart.BarsNonNegative | src/components/CashFlowChart.tsx:37-49 | with non-negative amounts every bar is non-negative |
| CashFlowChart.OtherMonthsDoNotContribute | src/components/CashFlowChart.tsx:43 | a transaction outside the chart's calendar month and year leaves every bar unchanged |
| CardsCarousel.InitialSelection | src/components/CardsCarousel.tsx:23-32 | the selected id always names an existing card |
| CardsCarousel.FirstTransactionCardWins | src/components/CardsCarousel.tsx:23-28 | when the first listed transaction names an existing card, that card is selected |
| CardsCarousel.LastCardFallback | src/components/CardsCarousel.tsx:31-32 | otherwise the last card is selected |
| CardsCarousel.Carousel.constructor | src/components/CardsCarousel.tsx:11-18 | no active card, form closed and cleared, type debit, default colour |
| CardsCarousel.Carousel.SelectInitialCard | src/components/CardsCarousel.tsx:21-34 | the effect selects only when not loading, with cards, and no truthy active id, and then picks the initial selection; otherwise the active id is unchanged; a newly set id names an existing card |
| CardsCarousel.Carousel.HandleAddCard | src/components/CardsCarousel.tsx:36-49 | the draft carries the form's name, type and colour, the converted balance and a generated last4; once `addCard` has resolved, the form is closed and cleared except the colour |
| CardsCarousel.ActiveCard | src/components/CardsCarousel.tsx:63 | no card only without cards; the card with the active id if one exists, else the first card |
| CardsCarousel.SelectionIsShown | src/components/CardsCarousel.tsx:21-34 | once selected, the displayed card is the selected one |
| CardsCarousel.StackIndex | src/components/CardsCarousel.tsx:76-77 | the stack index is -1 exactly when no inactive card carries the card's id, and otherwise a position below the number of cards |
| CardsCarousel.ZIndex | src/components/CardsCarousel.tsx:82-113 | a card in the stack is drawn below the front card's `z-50` |
| CardsCarousel.ActiveCardNotStacked | src/components/CardsCarousel.tsx:76-77 | the active card has stack index -1 |
| CardsCarousel.StackIndexIsRank | src/components/CardsCarousel.tsx:76-77 | with unique ids an inactive card's stack index is the number of inactive cards before it |
| CardsCarousel.StackOrder | src/components/CardsCarousel.tsx:76-77 | inactive cards get increasing, hence distinct, stack indices in list order, all between 0 and n-2 |
| CardsCarousel.Last4Number | src/components/CardsCarousel.tsx:43 | `Math.floor(1000 + r * 9000)` lies between 1000 and 9999 for r in [0, 1) |
| CardsCarousel.DecimalRoundTrip | src/components/CardsCarousel.tsx:43 | reading back the printed decimal digits of a number gives the number |
| CardsCarousel.Last4 | src/components/CardsCarousel.tsx:43 | last4 is four decimal digits, without a leading zero, whose value is between 1000 and 9999 |
| WalletSummary.TotalBalance | src/components/WalletSummary.tsx:9 | the total is never negative when no card's balance is |
| WalletSummary.AddCardAddsBalance | src/components/WalletSummary.tsx:9 | appending a card raises the total by exactly its balance |
| WalletSummary.TotalIgnoresOrder | src/components/WalletSummary.tsx:9 | the total does not depend on the order of the cards |
| WalletSummary.EmptyWalletIsZero | src/components/WalletSummary.tsx:9 | no cards give a total of 0 |
| WalletSummary.TotalBoundsEachCard | src/components/WalletSummary.tsx:9 | with non-negative balances the total is at least each card's balance |

## Left out

- Persistence is left out because it is I/O: loading from and saving to `localStorage`, JSON (de)serialisation, the `isLoaded` flag, and the `localStorage.removeItem` call in `resetData`.
- The Supabase client is left out because it is I/O.
- Authentication and `addCard` are left out because the hook does not implement them. `HandleAddCard` returns the object it would pass to `addCard`.
- CardsCarousel.Carousel.HandleAddCard: models the run in which `addCard` resolves. If it throws or rejects, the form stays open with its contents, and the model does not cover that run.
- Floating point is not modelled: amounts are exact reals, so rounding is ignored.
- `parseFloat`, `Number(...)` and `Math.random()` are not modelled; their results are parameters.
  - `HandleBudgetChange` receives `None` for NaN.
  - `GoalProgress` uses `None` for the NaN of 0/0.
- Date parsing and time zones are not modelled. A transaction's date is the (year, month, day) the local getters return, and each view receives the current month and year as parameters.
- CashFlowChart.BuildChartData: dates are modelled as calendar triples, so the method requires every transaction date to be a real calendar date. An Invalid Date, whose getters return NaN and which the source would skip, is not representable. The month length comes from the Gregorian calendar, as `new Date(y, m + 1, 0).getDate()` does.
- TransactionsView.SortNewestFirst: orders by the calendar day only, since the model's dates have no time of day. The model's sort is stable, as the ECMAScript sort is, but no lemma states that stability.
- TransactionsView.ToLower: folds ASCII capitals only. `toLowerCase` also folds accented and other non-ASCII letters, and the model does not.
- DashboardView.GetCategoryIcon: does not model lookups of inherited object keys such as `constructor`, which the source's object literal would answer from its prototype.
- Categories: the item field `label` is named `name`, because `label` is a reserved word in Dafny. Icons are an enumeration of the icon names.
- FinanceHook: transaction ids are plain strings. A transaction created without an id is a transaction whose id it shares with every other such transaction; `DeleteDrift` and `SharedIdDeleteBreaksBalance` state what deletion then does.
- Charts with fixed series, mock data grids, formatting helpers (`formatCurrency`, `formatDate`), the form components and all presentation (CSS classes, scale and offset of stacked cards apart from the z-index) are outside the modelled core.
