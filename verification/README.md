# BudgetZen finance model in Dafny

BudgetZen is an iOS personal-finance app. Its in-memory core is modelled here:

- **Entities.** Categories, budgets and transactions. Each category has a type (income or expense) and a display order. A budget embeds a copy of its category. A transaction refers to its category by id.
- **View models.**
  - `TransactionViewModel` owns the three arrays and adds, deletes, replaces and resets their entries.
  - `SettingsViewModel` edits the category list: per-type deletion, reordering, reset to the five default categories, and the PIN flag.
  - `CalendarViewModel` keeps transactions by day. It computes a day's totals under type and category filters, and the statistics of a week or a month.
  - `StatisticsViewModel` builds chart points from a type, a closed date range and a category selection, plus the comparison window before it.
- **Views.** A few views carry logic of their own, modelled as well:
  - the category form and the transaction form;
  - the PIN screen;
  - the budget progress row;
  - the month, calendar and week grids with their per-day transaction lists and totals.

## How the model is built

- **Representation.**
  - Dates are integer timestamps.
  - The calendar screens use day numbers, where the next day is one more.
  - Amounts are exact `real`s.
  - Ids are natural numbers. A fresh `UUID()` made by an operation is a parameter of it (`newId`). The five default categories have the fixed ids 0 to 4.
  - Swift's `type` field is called `kind`.
- **State and pure code.**
  - Objects whose fields the source mutates are classes: `TransactionViewModel`, `SettingsViewModel` and `CalendarViewModel`, and the form state of `CategoryForm`, `TransactionForm` and `PinForm`. Their methods carry `modifies` clauses and state the whole new state.
  - Loops in the source are loops here: `updateBudgetsForCategory`, `deleteCategories`, `moveCategory`, `getDayTotal`, `updatePeriodStatistics` and the month grids. Each loop is proved against a specification function.
  - The source's filter, map, sort and reduce chains are functions.
- **The calendar is an input.** `dayOf` maps a date to its day. `addDays(d, k)` is the date `k` days after `d`. The first day of a period, the first weekday of a month and the length of a month are parameters.
- **Dictionary order is an input.** `updatePeriodStatistics` enumerates a Swift dictionary. The order of its keys is the parameter `keyOrder`, which lists every key once.
- **Sign versus type.** The source decides "expense" in two ways:
  - `TransactionViewModel` uses the sign of the amount.
  - The calendar views use the type.

  Each function follows its own source. Lemmas that relate the two take as a precondition that signs agree with types (`SignMatchesType`).

  The app's own entry form does not meet that precondition. `saveTransaction` stores the typed amount unchanged whatever the type (AddTransactionView.swift:92-105), and the amount field uses a decimal pad, which has no minus key (line 23). An expense entered through the form is therefore positive:
  - `periodIncome` counts it (TransactionViewModel.swift:159-162);
  - `periodExpenses` and `spentAmount` ignore it (lines 164-167 and 201-204);
  - the week total subtracts it, because it goes by type (WeekView.swift:117-119).

  `FormExpenseCountsAsIncome` states this. `PeriodTotalsByType` and `SpentAmountByType` say nothing about such expenses.

## Model

| member | source | states |
|---|---|---|
| Entities.NewCategory | BudgetZen/Models/Category.swift:16-24 | every argument is stored unchanged; `isDefault` and `order` default to `false` and `0` |
| Entities.DefaultCategoriesShape | BudgetZen/Models/Category.swift:30-36 | the seed has five entries, two income then three expense, all marked default |
| Entities.DefaultCategoryOrdersAreDense | BudgetZen/Models/Category.swift:31-35 | within each type the seed's orders are 0, 1, ... without gaps |
| Entities.DefaultCategoryNamesDistinct | BudgetZen/Models/Category.swift:31-35 | the five names, and the five ids, are pairwise distinct |
| Entities.NewTransaction | BudgetZen/Models/Transaction.swift:18-28 | every argument is stored unchanged |
| Entities.NewTransactionDefaults | BudgetZen/Models/Transaction.swift:18 | without the optional arguments: no note, not recurring, no interval |
| Entities.SameTransactionIsIdEquality | BudgetZen/Models/Transaction.swift:30-32 | `==` holds exactly when ids are equal, whatever the other fields; it is reflexive, symmetric and transitive |
| Entities.IncomeIsNotExpense | BudgetZen/Models/TransactionType.swift:3-6 | a transaction is income exactly when it is not an expense |
| Entities.TransactionCategory | BudgetZen/Models/Transaction.swift:14-16 | the `category` accessor is always `nil` |
| SafeSubscript.SafeGetInRange | BudgetZen/Extensions/Array+SafeSubscript.swift:2-4 | an index in range yields that element |
| SafeSubscript.SafeGetOutOfRange | BudgetZen/Extensions/Array+SafeSubscript.swift:3 | a negative index or one past the end yields `nil` |
| SafeSubscript.SafeGetIsElement | BudgetZen/Extensions/Array+SafeSubscript.swift:2-4 | a value comes back exactly for an index in range, and it is an element of the array |
| SafeSubscript.SafeGetOnEmpty | BudgetZen/Extensions/Array+SafeSubscript.swift:3 | on an empty array every index yields `nil` |
| CategoryList.CategoriesOfType | BudgetZen/ViewModels/TransactionViewModel.swift:127-133 | an order-preserving subsequence holding exactly the categories of that type, each as often as in the input |
| CategoryList.CategoryFor | BudgetZen/ViewModels/TransactionViewModel.swift:123-125 | `nil` exactly when no category has the id; otherwise the first one that has it |
| CategoryList.NextCategoryOrder | BudgetZen/ViewModels/TransactionViewModel.swift:250-253 | above every order of that type; 0 when the type has no category; otherwise one more than the largest order of the type |
| CategoryList.MaxOrder | BudgetZen/ViewModels/SettingsViewModel.swift:107 | `nil` exactly for an empty list; otherwise an order present in the list and not below any other |
| CategoryList.RemoveFirstIsFilter | BudgetZen/ViewModels/SettingsViewModel.swift:89-90 | with unique ids, removing the first category with an id removes every category with it |
| CategoryList.UniqueIdsFilter | BudgetZen/ViewModels/TransactionViewModel.swift:54 | removing categories keeps ids unique |
| TransactionStore.FilteredTransactions | BudgetZen/ViewModels/TransactionViewModel.swift:150-153 | no type: the list unchanged; a type: exactly the transactions of that type, in order and each as often as in the input |
| TransactionStore.TotalBalanceAfterAdd | BudgetZen/ViewModels/TransactionViewModel.swift:139-143 | appending a transaction raises the balance by its amount (also lines 155-157) |
| TransactionStore.TotalBalance | BudgetZen/ViewModels/TransactionViewModel.swift:155-157 | the sum of all amounts: non-negative when every amount is, non-positive when every amount is |
| TransactionStore.TotalBalanceByType | BudgetZen/ViewModels/TransactionViewModel.swift:155-157 | the balance is the expense-typed sum plus the income-typed sum |
| TransactionStore.FilterTransactions | BudgetZen/ViewModels/TransactionViewModel.swift:169-184 | an order-preserving subsequence holding exactly the transactions with `start <= date <= now`, each as often as in the input |
| TransactionStore.PeriodIncome | BudgetZen/ViewModels/TransactionViewModel.swift:159-162 | the sum of the strictly positive amounts in the window; never negative; 0 when there is none |
| TransactionStore.PeriodExpenses | BudgetZen/ViewModels/TransactionViewModel.swift:164-167 | the absolute value of the sum of the negative amounts in the window; never negative; 0 when there is none |
| TransactionStore.PeriodNet | BudgetZen/ViewModels/TransactionViewModel.swift:159-167 | income minus expenses is the sum of every amount in the window |
| TransactionStore.PeriodTotalsByType | BudgetZen/ViewModels/TransactionViewModel.swift:159-167 | when signs agree with types, the two sums are the income-typed sum and minus the expense-typed sum |
| TransactionStore.SpentAmount | BudgetZen/ViewModels/TransactionViewModel.swift:201-204 | minus the sum of the category's negative amounts; never negative; 0 when the category has none |
| TransactionStore.SpentAmountByType | BudgetZen/ViewModels/TransactionViewModel.swift:201-204 | when signs agree with types, it is minus the category's expense-typed sum |
| TransactionStore.GroupByDay | BudgetZen/ViewModels/TransactionViewModel.swift:188-194 | one entry per day that has a transaction, days strictly ascending, each entry the sum of its day's amounts |
| TransactionStore.GroupByDayTotal | BudgetZen/ViewModels/TransactionViewModel.swift:188-194 | the per-day amounts add up to the total of the grouped transactions |
| TransactionStore.TransactionsByDay | BudgetZen/ViewModels/TransactionViewModel.swift:186-195 | as `GroupByDay`, over the transactions of the closed window |
| TransactionStore.TransactionsByDayTotal | BudgetZen/ViewModels/TransactionViewModel.swift:186-195 | the per-day amounts add up to the window's total |
| TransactionStore.RecentTransactions | BudgetZen/ViewModels/TransactionViewModel.swift:197-199 | a permutation of the transactions with dates non-increasing |
| TransactionStore.ActiveSubscriptions | BudgetZen/ViewModels/TransactionViewModel.swift:206-208 | an order-preserving subsequence holding exactly the recurring transactions, each as often as in the input |
| TransactionStore.DefaultBudgets | BudgetZen/ViewModels/TransactionViewModel.swift:82-92 | one budget per expense category, in category order, each with its drawn id, limit 1000 and a monthly period |
| TransactionStore.DefaultBudgetsCoverExpenses | BudgetZen/ViewModels/TransactionViewModel.swift:83 | a category has a default budget exactly when it is an expense category of the list |
| TransactionStore.RemoveAtOffsetsSpec | BudgetZen/ViewModels/TransactionViewModel.swift:145-148 | removing valid offsets shortens the list by their number; the rest is an order-preserving subsequence that keeps every element not removed, each moved down by the number of offsets below its index |
| TransactionStore.TransactionViewModel.constructor | BudgetZen/ViewModels/TransactionViewModel.swift:24-40 | no transactions; the decoded categories or else the default seed; the decoded budgets or else the default budgets (also lines 72-80) |
| TransactionStore.TransactionViewModel.LoadCategories | BudgetZen/ViewModels/TransactionViewModel.swift:30-40 | the decoded list, or the default seed when none was decoded; nothing else changes |
| TransactionStore.TransactionViewModel.LoadBudgets | BudgetZen/ViewModels/TransactionViewModel.swift:72-80 | the decoded budgets, or one default budget per expense category; nothing else changes |
| TransactionStore.TransactionViewModel.CreateDefaultBudgets | BudgetZen/ViewModels/TransactionViewModel.swift:82-92 | the budgets become `DefaultBudgets` of the categories; nothing else changes |
| TransactionStore.TransactionViewModel.AddCategory | BudgetZen/ViewModels/TransactionViewModel.swift:48-51 | the category is appended; nothing else changes |
| TransactionStore.TransactionViewModel.DeleteCategory | BudgetZen/ViewModels/TransactionViewModel.swift:53-59 | every category with that id and every budget of such a category is removed; the rest stay, in order; transactions are untouched |
| TransactionStore.TransactionViewModel.UpdateCategory | BudgetZen/ViewModels/TransactionViewModel.swift:61-68 | the first category with the id is replaced in place; each budget of that id gets the new category with its own id, limit and period; an absent id changes nothing |
| TransactionStore.TransactionViewModel.UpdateBudgetsForCategory | BudgetZen/ViewModels/TransactionViewModel.swift:107-119 | same length; each budget of the category gets the new category and keeps its id, limit and period; other budgets are unchanged |
| TransactionStore.TransactionViewModel.UpdateBudget | BudgetZen/ViewModels/TransactionViewModel.swift:100-105 | the first budget with the same id is replaced in place; no match changes nothing |
| TransactionStore.TransactionViewModel.AddTransaction | BudgetZen/ViewModels/TransactionViewModel.swift:139-143 | the transaction is appended and the balance grows by its amount; nothing else changes |
| TransactionStore.TransactionViewModel.DeleteTransactions | BudgetZen/ViewModels/TransactionViewModel.swift:145-148 | the transactions at the offsets are removed and the count drops by their number |
| TransactionStore.TransactionViewModel.DeleteAllData | BudgetZen/ViewModels/TransactionViewModel.swift:210-217 | no transactions, no budgets, the default categories |
| TransactionStore.TransactionViewModel.ResetAllData | BudgetZen/ViewModels/TransactionViewModel.swift:255-275 | no transactions, no budgets, the default categories |
| SettingsStore.DeleteAtIndicesIsFilter | BudgetZen/ViewModels/SettingsViewModel.swift:85-93 | with unique ids, deleting at indices removes exactly the categories whose ids the in-range indices designate in the per-type list taken before any removal |
| SettingsStore.DeleteCategoriesKeepsOtherType | BudgetZen/ViewModels/SettingsViewModel.swift:85-93 | the categories of the other type are untouched and keep their order |
| SettingsStore.ApplyOrdersSpec | BudgetZen/ViewModels/SettingsViewModel.swift:115-126 | writing the moved categories back gives each of them its position as order and changes nothing else |
| SettingsStore.MoveCategoryEffect | BudgetZen/ViewModels/SettingsViewModel.swift:110-127 | same length; only `order` changes, in place; the k-th moved category now has order k; categories of the other type are unchanged |
| SettingsStore.SettingsViewModel.constructor | BudgetZen/ViewModels/SettingsViewModel.swift:133-136 | the default categories, no PIN |
| SettingsStore.SettingsViewModel.UpdatePin | BudgetZen/ViewModels/SettingsViewModel.swift:71-74 | a PIN is recorded; categories unchanged |
| SettingsStore.SettingsViewModel.RemovePin | BudgetZen/ViewModels/SettingsViewModel.swift:76-79 | no PIN; categories unchanged |
| SettingsStore.SettingsViewModel.DeleteCategories | BudgetZen/ViewModels/SettingsViewModel.swift:85-93 | each index designates an entry of the per-type list captured before removal; indices out of range are ignored; with unique ids, exactly the designated categories are removed |
| SettingsStore.SettingsViewModel.AddCategory | BudgetZen/ViewModels/SettingsViewModel.swift:95-97 | the category is appended at the end |
| SettingsStore.SettingsViewModel.UpdateCategory | BudgetZen/ViewModels/SettingsViewModel.swift:99-103 | the first entry with the id is replaced in place; length unchanged; an absent id changes nothing |
| SettingsStore.SettingsViewModel.MoveCategory | BudgetZen/ViewModels/SettingsViewModel.swift:110-127 | the loop writes each moved category back with its position as order (see `MoveCategoryEffect`) |
| SettingsStore.SettingsViewModel.ResetToDefaultCategories | BudgetZen/ViewModels/SettingsViewModel.swift:129-131 | the categories are the default seed |
| SettingsStore.ValidatePin | BudgetZen/ViewModels/SettingsViewModel.swift:66-69 | every PIN is accepted |
| CalendarStats.FilteredDay | BudgetZen/ViewModels/CalendarViewModel.swift:65-71 | `nil` exactly when the day has no entry; otherwise an order-preserving subsequence of that day with a selected type and, if categories are selected, a selected category, each as often as on that day |
| CalendarStats.NoTypeSelectedShowsNothing | BudgetZen/ViewModels/CalendarViewModel.swift:68 | with no type selected a present day shows an empty list |
| CalendarStats.EverythingSelectedShowsAll | BudgetZen/ViewModels/CalendarViewModel.swift:67-70 | with both types and no category filter a day shows all its transactions |
| CalendarStats.PeriodTransactionsSpec | BudgetZen/ViewModels/CalendarViewModel.swift:91-92 | the period counts exactly the transactions of the days `periodStart <= d < periodEnd` |
| CalendarStats.PeriodTransactionsAppend | BudgetZen/ViewModels/CalendarViewModel.swift:91-92 | enumerating two runs of days one after the other concatenates their transactions |
| CalendarStats.PeriodTransactionsOfDay | BudgetZen/ViewModels/CalendarViewModel.swift:91-92 | a single day contributes its whole list when it lies in the period and nothing otherwise |
| CalendarStats.PeriodTransactionsRemove | BudgetZen/ViewModels/CalendarViewModel.swift:91-92 | each enumerated day contributes its transactions exactly once (as a multiset) when in the period, nothing otherwise |
| CalendarStats.PeriodTransactionsPermutation | BudgetZen/ViewModels/CalendarViewModel.swift:91-92 | any enumeration order of the same days gives the same multiset of transactions |
| CalendarStats.AmountOfEntry | BudgetZen/ViewModels/CalendarViewModel.swift:101 | with each id once, looking up an entry's id gives that entry's amount |
| CalendarStats.AddAmountLookup | BudgetZen/ViewModels/CalendarViewModel.swift:101 | `categoryTotals[id, default: 0] += amount` raises the id's value by the amount (from 0 when absent) and no other id's value |
| CalendarStats.AddAmountEntries | BudgetZen/ViewModels/CalendarViewModel.swift:101 | after adding, each id is still present once, the id is present, no entry but the id's is new, and every other id's entry is kept |
| CalendarStats.AddAmountSpec | BudgetZen/ViewModels/CalendarViewModel.swift:101 | `categoryTotals[id, default: 0] += amount`: the id's value rises by the amount (from 0), every other id's value and entry is unchanged, the grand total rises by the amount, and ids stay unique |
| CalendarStats.TallyOfAmounts | BudgetZen/ViewModels/CalendarViewModel.swift:98-105 | the value the dictionary holds for every id is the sum of the expenses booked on that category |
| CalendarStats.TallyOfCovers | BudgetZen/ViewModels/CalendarViewModel.swift:98-105 | every expense's category has an entry |
| CalendarStats.TallyOfSpec | BudgetZen/ViewModels/CalendarViewModel.swift:98-105 | the expense-typed sum, the sum of the other types, category totals adding up to the expenses, one entry per category, each backed by an expense, every expense's category present, and each entry's amount the sum of the expenses booked on its category |
| CalendarStats.CategoryTotalsAddUp | BudgetZen/ViewModels/CalendarViewModel.swift:98-105 | the category totals add up to the expense-typed sum |
| CalendarStats.CompactLookup | BudgetZen/ViewModels/CalendarViewModel.swift:117-120 | entries whose lookup fails are dropped; each kept pair is a found category with its total |
| CalendarStats.CompactLookupPositions | BudgetZen/ViewModels/CalendarViewModel.swift:117-120 | position by position, the i-th pair is the i-th entry whose category is found, with that category and the entry's amount |
| CalendarStats.CompactLookupKeepsFound | BudgetZen/ViewModels/CalendarViewModel.swift:117-120 | every entry whose category is found appears, paired with its amount |
| CalendarStats.CompactLookupKeepsOrder | BudgetZen/ViewModels/CalendarViewModel.swift:117-120 | dropping entries keeps the non-increasing order |
| CalendarStats.TopTotalsSpec | BudgetZen/ViewModels/CalendarViewModel.swift:114-116 | `sorted { $0.value > $1.value }.prefix(5)` takes min(5, n) entries of the dictionary, in non-increasing order, none smaller than an entry left out |
| CalendarStats.TopCategories | BudgetZen/ViewModels/CalendarViewModel.swift:114-120 | at most five pairs, amounts non-increasing, each a looked-up category with its total |
| CalendarStats.TopCategoriesSpec | BudgetZen/ViewModels/CalendarViewModel.swift:114-120 | the top categories are the found entries among a choice of the five largest totals |
| CalendarStats.DailyAverage | BudgetZen/ViewModels/CalendarViewModel.swift:109-111 | the average times the number of days is the total; a non-negative total gives an average between 0 and the total |
| CalendarStats.PeriodEnd | BudgetZen/ViewModels/CalendarViewModel.swift:82-89 | a week spans seven days, a month its number of days |
| CalendarStats.StatisticsOfSpec | BudgetZen/ViewModels/CalendarViewModel.swift:73-123 | totals over the half-open period by type, their balance, daily averages that times the period's days give the totals, top categories found among a choice of the five largest category totals in non-increasing order, each paired with the sum of the period's expenses on it (also lines 36-38) |
| CalendarStats.StatisticsOrderIndependent | BudgetZen/ViewModels/CalendarViewModel.swift:91-111 | the sums, the daily averages and every category's expenses do not depend on the order in which the dictionary enumerates its days |
| CalendarStats.TopCategoriesAreExpenses | BudgetZen/ViewModels/CalendarViewModel.swift:98-101 | every top category stands for expenses of the period; filters play no part (also lines 114-120) |
| CalendarStats.AddDays | BudgetZen/ViewModels/CalendarViewModel.swift:91-106 | the outer loop skips the days outside `[periodStart, periodEnd)` and ends with the running totals of the period's transactions, day by day in enumeration order |
| CalendarStats.AddDay | BudgetZen/ViewModels/CalendarViewModel.swift:98-105 | the inner loop carries the running totals on to those including the day's transactions |
| CalendarStats.CalendarViewModel.constructor | BudgetZen/ViewModels/CalendarViewModel.swift:6-13 | month view, no transactions, both types, no category filter, zero statistics |
| CalendarStats.SumDay | BudgetZen/ViewModels/CalendarViewModel.swift:54-61 | the loop over a day's transactions ends with the expense-typed sum and the sum of the other types |
| CalendarStats.CalendarViewModel.GetDayTotal | BudgetZen/ViewModels/CalendarViewModel.swift:51-63 | zeros for a day without an entry; otherwise the selected expense-typed sum and the selected sum of the other types |
| CalendarStats.CalendarViewModel.UpdatePeriodStatistics | BudgetZen/ViewModels/CalendarViewModel.swift:73-123 | the stored statistics are `StatisticsOf` the period; the filters and the transactions are unchanged |
| Statistics.KeptSpec | BudgetZen/ViewModels/StatisticsViewModel.swift:30-34 | the three filters keep exactly the transactions of the type, in the closed range, and in the selected categories (any category when none is selected), in order |
| Statistics.MapData | BudgetZen/ViewModels/StatisticsViewModel.swift:41-47 | one point per transaction, with its date, amount, category and type |
| Statistics.StatisticsDataFor | BudgetZen/ViewModels/StatisticsViewModel.swift:30-49 | the points of exactly the kept transactions, sorted by ascending date |
| Statistics.StatisticsDataMembers | BudgetZen/ViewModels/StatisticsViewModel.swift:30-49 | each kept transaction contributes its point; each point has the type, lies in the range and in the selected categories |
| Statistics.PeriodTotal | BudgetZen/ViewModels/StatisticsViewModel.swift:56-58 | 0 for no data |
| Statistics.PeriodTotalPermutation | BudgetZen/ViewModels/StatisticsViewModel.swift:56-58 | the total does not depend on the order of the points |
| Statistics.StatisticsTotal | BudgetZen/ViewModels/StatisticsViewModel.swift:30-58 | the chart's total is the sum of the kept transactions' amounts |
| Statistics.CategoryTotalOfAbsent | BudgetZen/ViewModels/StatisticsViewModel.swift:51-54 | a category with no point totals 0 |
| Statistics.CategoryTotalSplitsPeriodTotal | BudgetZen/ViewModels/StatisticsViewModel.swift:51-58 | a category's total is `periodTotal` of its points, and with the other points' total makes the period total |
| Statistics.CategoryTotalPermutation | BudgetZen/ViewModels/StatisticsViewModel.swift:51-54 | a category's total does not depend on the order of the points |
| Statistics.PreviousRange | BudgetZen/ViewModels/StatisticsViewModel.swift:63-64 | the previous window ends at the selected lower bound and has the same length |
| Statistics.PreviousPeriodData | BudgetZen/ViewModels/StatisticsViewModel.swift:60-78 | `nil` exactly when the comparison is off; otherwise the points of the previous window under the same filters, in source order |
| Statistics.PreviousPeriodIsUnsortedStatistics | BudgetZen/ViewModels/StatisticsViewModel.swift:60-78 | the previous-period points are those `statisticsData` gives for the previous window, unsorted |
| Statistics.BoundaryInBothWindows | BudgetZen/ViewModels/StatisticsViewModel.swift:33 | a selected transaction dated exactly at the lower bound is in both windows (also lines 63-68) |
| Statistics.CategoryName | BudgetZen/ViewModels/StatisticsViewModel.swift:124-126 | the name of the first category with the id, or "Inconnu" when none has it |
| BudgetProgress.Progress | BudgetZen/Views/Dashboard/Components/BudgetProgressRow.swift:7-9 | the smaller of `spent / limit` and 1; the fraction itself when within the limit, 1 from the limit on |
| BudgetProgress.RemainingAmount | BudgetZen/Views/Dashboard/Components/BudgetProgressRow.swift:11-13 | adds up with the spent amount to the limit; negative exactly when the limit is exceeded (also line 36) |
| BudgetProgress.NearLimitIffNinetyPercentSpent | BudgetZen/Views/Dashboard/Components/BudgetProgressRow.swift:22-27 | the row turns red exactly when more than 90 % of the limit is spent |
| BudgetProgress.PercentageAtMostHundred | BudgetZen/Views/Dashboard/Components/BudgetProgressRow.swift:22 | the displayed percentage never exceeds 100, and is not negative for a non-negative spend |
| BudgetProgress.OverspentIsNearLimit | BudgetZen/Views/Dashboard/Components/BudgetProgressRow.swift:7-13 | an exceeded budget shows a full red bar and a red remaining amount (also lines 23, 36) |
| CalendarGrid.MonthCells | BudgetZen/Views/Calendar/CalendarView.swift:73-90 | `firstWeekday - 1` blanks, then the first day plus 0, 1, ... days, nothing after |
| CalendarGrid.PaddedMonthCells | BudgetZen/Views/Calendar/MonthView.swift:46-69 | the same cells followed by blanks up to at least 42 |
| CalendarGrid.PaddedGridIsSixWeeks | BudgetZen/Views/Calendar/MonthView.swift:61-66 | for a weekday 1 to 7 and 28 to 31 days the grid has exactly 42 cells |
| CalendarGrid.GridsHoldEveryDayOnce | BudgetZen/Views/Calendar/MonthView.swift:46-69 | both grids hold exactly `daysInMonth` dated cells |
| CalendarGrid.DaysInMonth | BudgetZen/Views/Calendar/CalendarView.swift:73-90 | the loop builds `MonthCells` |
| CalendarGrid.PaddedDaysInMonth | BudgetZen/Views/Calendar/MonthView.swift:46-69 | the loop and the padding build `PaddedMonthCells` |
| CalendarGrid.DaysInWeek | BudgetZen/Views/Calendar/WeekView.swift:50-55 | seven dates: the start of the week plus 0 to 6 days |
| CalendarGrid.DaysInWeekAscending | BudgetZen/Views/Calendar/WeekView.swift:50-55 | when each added day moves forward, the seven dates ascend strictly |
| CalendarGrid.TransactionsOn | BudgetZen/Views/Calendar/WeekView.swift:57-61 | an order-preserving subsequence holding exactly the transactions on that day, each as often as in the input (also lines 107-111, and CalendarView.swift:99-104) |
| CalendarGrid.HasTransactionsOn | BudgetZen/Views/Calendar/MonthView.swift:71-76 | some transaction falls on that day (also CalendarView.swift:92-97) |
| CalendarGrid.HasTransactionsIffListNotEmpty | BudgetZen/Views/Calendar/CalendarView.swift:92-104 | a day is marked exactly when its transaction list is non-empty |
| CalendarGrid.WeekDayTotal | BudgetZen/Views/Calendar/WeekView.swift:113-120 | `nil` exactly when the day has no transaction; otherwise the income-typed sum minus the expense-typed sum |
| CalendarGrid.SignedSumSplits | BudgetZen/Views/Calendar/WeekView.swift:117-119 | adding income and subtracting the rest gives income-typed sum minus expense-typed sum |
| CalendarGrid.GreenIffIncomeCoversExpenses | BudgetZen/Views/Calendar/WeekView.swift:80 | the total is green exactly when the day's income covers its expenses |
| CalendarGrid.WeekTotalIsDayTotal | BudgetZen/Views/Calendar/WeekView.swift:113-120 | the week row's total equals `DayTotal.total` of the same transactions (CalendarViewModel.swift:46-48) |
| CategoryForms.Trim | BudgetZen/Views/Settings/CategoryFormView.swift:141-143 | the name without surrounding whitespace; empty exactly when the name is all whitespace (also line 151) |
| CategoryForms.CategoryForm.IsValid | BudgetZen/Views/Settings/CategoryFormView.swift:141-143 | the save button is enabled exactly when some character of the name is not whitespace |
| CategoryForms.TrimIdempotent | BudgetZen/Views/Settings/CategoryFormView.swift:151 | trimming a trimmed name changes nothing |
| CategoryForms.HasDuplicateName | BudgetZen/Views/Settings/CategoryFormView.swift:161 | some category, other than the one edited, has the typed name up to case |
| CategoryForms.PaddedNamePassesDuplicateCheck | BudgetZen/Views/Settings/CategoryFormView.swift:151 | the check uses the untrimmed name: " Transport" passes it although it trims to an existing name (also line 161) |
| CategoryForms.LowerIgnoresCase | BudgetZen/Views/Settings/CategoryFormView.swift:161 | names differing only in letter case compare equal |
| CategoryForms.SavedCategory | BudgetZen/Views/Settings/CategoryFormView.swift:167-175 | the trimmed name, never default; id and order of the edited category, or else the fresh id and the next order of its type |
| CategoryForms.NewCategoryComesLast | BudgetZen/Views/Settings/CategoryFormView.swift:167-175 | a new category's name is non-blank and its order is above all others of its type |
| CategoryForms.CategoryForm.SaveCategory | BudgetZen/Views/Settings/CategoryFormView.swift:150-184 | a blank name sets the empty-name error; a clash sets the duplicate error; both save nothing; otherwise one update (editing) or one append (new) |
| CategoryForms.CategoryForm.constructor | BudgetZen/Views/Settings/CategoryFormView.swift:6-25 | the edited category's name, icon, colour and type; for a new category an empty name, "tag.fill", blue and the expense type; no error |
| TransactionForms.CommaToPoint | BudgetZen/Views/Transactions/AddTransactionView.swift:93 | every comma becomes a point and nothing else changes |
| TransactionForms.CommaToPointIdempotent | BudgetZen/Views/Transactions/AddTransactionView.swift:93 | a text without commas is left as it is |
| TransactionForms.BuiltTransaction | BudgetZen/Views/Transactions/AddTransactionView.swift:96-105 | the note is `nil` exactly for an empty description, else the description; the interval is present exactly when recurring |
| TransactionForms.TransactionForm.IsValid | BudgetZen/Views/Transactions/AddTransactionView.swift:88-90 | the save button is enabled exactly when the title and the amount text are non-empty and a category is selected |
| TransactionForms.FormExpenseCountsAsIncome | BudgetZen/Views/Transactions/AddTransactionView.swift:92-105 | an expense built from a positive typed amount breaks `SignMatchesType`; the period income counts it in full and the period expenses ignore it (TransactionViewModel.swift:159-167) |
| TransactionForms.TransactionForm.SaveTransaction | BudgetZen/Views/Transactions/AddTransactionView.swift:92-109 | an unparsable amount or no category appends nothing; otherwise exactly the built transaction is appended |
| TransactionForms.TransactionForm.constructor | BudgetZen/Views/Transactions/AddTransactionView.swift:7-14 | empty texts, an expense, no category, monthly, not recurring |
| PinSettings.PinForm.CanUpdate | BudgetZen/Views/Settings/PINSettingsView.swift:48-54 | the update button is enabled exactly for a four-character new PIN equal to its confirmation, plus a typed current PIN when the view model has a PIN |
| PinSettings.CanUpdatePin | BudgetZen/Views/Settings/PINSettingsView.swift:48-54 | enabled exactly for a four-character PIN equal to its confirmation, plus a typed current PIN when one is set |
| PinSettings.EnabledButtonCanStillBeRefused | BudgetZen/Views/Settings/PINSettingsView.swift:48-54 | the button is enabled for "12a4", which the digit guard refuses (also line 65) |
| PinSettings.PinForm.UpdatePin | BudgetZen/Views/Settings/PINSettingsView.swift:56-72 | a set PIN that fails validation gives "PIN actuel incorrect"; a new PIN that is not four digits gives the four-digit error; otherwise `hasPIN` becomes true |
| PinSettings.PinForm.constructor | BudgetZen/Views/Settings/PINSettingsView.swift:4-9 | nothing typed and no error |

## Left out

- Persistence is not modelled: `UserDefaults`, the JSON encoders and decoders, and the save calls. A decoded list enters only as an `Option` input of `LoadCategories`, `LoadBudgets` and the `TransactionViewModel` constructor.
- Biometric authentication, `checkBiometrics`, export, sync, `loadTransactions` and `generateTestData` are not modelled. They are foreign calls, I/O, clock reads, randomness, or empty stubs.
- Foundation `Calendar` arithmetic is not modelled. Period starts, `startOfDay`, weekday numbers, month lengths and day additions are parameters (`dayOf`, `addDays`, `periodStart`, `daysInMonth`, `firstWeekday`). So are the clock reads (`Date()`) behind the Dashboard windows and `updateDateRange`.
- `Calendar.date(byAdding:)` is taken never to fail. The grids and the week therefore contain every day.
- `Double` is modelled as an exact `real`: no rounding, infinity or NaN.
- BudgetProgress.Progress: requires a positive limit. It does not model Swift's division by a zero or negative limit.
- Sorting is modelled as a stable insertion sort: `recentTransactions`, the statistics chart and the top categories. Swift's sort is not stable, and tie order is not part of any contract. For the top categories, ties also depend on dictionary order.
- `updatePeriodStatistics` has three parts not modelled:
  - Its `daysWithTransactions` counter (CalendarViewModel.swift lines 76 and 94-96) is computed but never used, so it is left out.
  - `getCategoryById` is a stub returning a fake category, so it is the parameter `lookup`.
  - The `?? 1` fallback on the day count never applies, because the period bounds are given.
- The `categories` and `selectedDate` fields of `CalendarViewModel` are not modelled. The modelled members read neither field; the selected date enters through `periodStart`.
- The category dictionary `categoryTotals` is an association list in first-insertion order.
- Fresh ids are parameters with no constraint. The model does not assume that a `newId` differs from existing ids or from the default ids 0 to 4. Where uniqueness matters, a lemma states it as a hypothesis (`UniqueIds` in `CategoryList`).
- The preference fields of `SettingsViewModel` are not modelled: `useBiometrics`, `enableReminders`, `enableBudgetAlerts`, `selectedCurrency`, `selectedLanguage`, `enableICloudSync`, `accentColor`, `interfaceStyle`, `lastSyncDate`, `reminderTime`, `reminderFrequency`, `alertOnOverspend`, `budgetAlertThreshold` and `editingCategory`. No modelled operation reads them.
- `move(fromOffsets:toOffset:)` is not modelled: `MoveCategory` takes the reordered per-type list `moved` as input.
- `deleteCategories` takes the `IndexSet` as its elements in ascending order.
- `deleteTransaction(at:)` takes its offsets as a set of valid indices. Swift traps on an invalid offset, and that precondition is stated.
- CategoryForms.Lower: folds only ASCII capitals. Swift's `lowercased()` is full Unicode.
- CategoryForms.Trim: works on Unicode scalars, not grapheme clusters.
- The category colour is held as its hex string. `Color(hex:)` and `toHex()` are not part of this model.
- PinSettings.IsFourDigitPin: accepts only ASCII digits, where `CharacterSet.decimalDigits` also holds other Unicode digits. Lengths count scalars, not grapheme clusters.
- PinSettings.PinForm.UpdatePin: takes `validatePIN` as the parameter `validatePin`. The view model's own `ValidatePin` accepts every PIN, so with it only the digit guard can refuse.
- TransactionForms.TransactionForm.SaveTransaction: takes `Double(_:)` as the parameter `parseDouble`. Swift's number grammar is not modelled.
- `dismiss()`, the alerts and all SwiftUI layout are not modelled, nor are `StatisticsViewModel.groupedData` (locale-formatted keys), `categoryColor(s)`, `categoryNames`, `loadInitialData` and the Combine subscription.
- The `DashboardViewModel` demo data is not modelled.
- `PeriodStatistics.balance` and `DayTotal.total` are the one-line members `Balance` and `Total`. They are stated through `StatisticsOfSpec` and `WeekTotalIsDayTotal`.
