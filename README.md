# Recurring-expense tracker core, in Dafny

This project models the core of a console personal-finance tracker. Its parts are:

- **The recurring-expense scheduler.** `RecurringExpense` is a template with a frequency, a start date, a cursor `nextDueDate` and an active flag. `RecurringExpenseManager` keeps the list of templates. It offers list updates, due-date queries, per-category and per-frequency sums, `processRecurringExpenses` (one expense per due template) and `processOverdueRecurringExpenses`. The latter is the catch-up: it backfills one expense for every missed period up to today and moves each cursor past today.
- **The startup reconciler of `App`.** It has its own step rule and a ledger lookup by template id and date. It decides whether an overdue template still has an unprocessed period, and whether to run the catch-up.
- **The ledger.** `TransactionManager` appends transactions and answers monthly totals and per-category breakdowns.
- **The category registries of `Expense` and `Income`.** `setCategory` extends them as a side effect.
- **The text helpers `centerText` and `truncate`.**

Modules follow the program:

| Module | Models |
|---|---|
| `Dates` | the `java.time.LocalDate` arithmetic the code relies on: `plusDays`, `plusWeeks`, and `plusMonths`/`plusYears` clamping the day of month |
| `Schedule` | frequencies, the step rule, and the sequence of step dates a "while not after limit" loop visits |
| `RecurringExpenses` | the template, as a value (`TemplateState`) and as a class (`RecurringExpense`) |
| `RecurringExpenseManagers` | the manager, as functions on lists of template values and a class holding template objects |
| `Ledger` | `TransactionManager` |
| `Categories` | the two registries |
| `DisplayUtils` | the text helpers |
| `App` | the startup reconciler |
| `Transactions` | the transaction record |
| `Seqs`, `Grouping`, `Wrappers` | filtering, stable sorting, group sums, `Option` |

Each mutating operation is a method on a class. Its `ensures` ties the new state to a function of the old state (`Snapshot() == CatchUpAll(old(Snapshot()), today)`). The properties the program promises are lemmas about those functions. Amounts are integers (minor units). Today's date, the millisecond clock used in generated ids, and the user's answer at startup are parameters.

## Model

| member | source | states |
|---|---|---|
| Dates.PrevDayIsLatestBefore | src/main/java/org/gabx/expenses/App.java:228-229 | a date is on or before `today.minusDays(1)` exactly when it is before today |
| Schedule.StepIncreases | src/main/java/org/gabx/expenses/App.java:273-290 | every frequency, four-weekly included, moves a date strictly forward |
| Schedule.ClampingExamples | src/main/java/org/gabx/expenses/App.java:281-286 | month, quarter and year steps clamp the day to the end of a shorter month (Jan 31 → Feb 29/28, Feb 29 + 1 year → Feb 28) |
| Schedule.TemplateStepAsWrittenStalls | src/main/java/org/gabx/expenses/transactions/RecurringExpense.java:159-174 | the template's step agrees with the full step except on FOUR_WEEKS, where it returns its input although the full step moves forward |
| Schedule.AsWrittenCatchUpNeverEnds | src/main/java/org/gabx/expenses/manager/RecurringExpenseManager.java:219-234 | with the manager's step, the catch-up cursor of a due FOUR_WEEKS template stays on its date, on or before today, after any number of iterations |
| Schedule.DatesThroughSteps | src/main/java/org/gabx/expenses/manager/RecurringExpenseManager.java:121-133 | the loop visits exactly the first n step dates, each on or before the limit, and leaves the cursor on step n, which is after the limit |
| Schedule.DatesThroughIndex | src/main/java/org/gabx/expenses/App.java:237-243 | the k-th step date is visited exactly when it is on or before the limit |
| Schedule.DatesThroughAscending | src/main/java/org/gabx/expenses/manager/RecurringExpenseManager.java:122-130 | the visited dates are strictly ascending |
| Schedule.DatesThroughMembers | src/main/java/org/gabx/expenses/manager/RecurringExpenseManager.java:122-130 | a date is visited exactly when it is a step date from the start that is on or before the limit |
| Schedule.DatesThroughEmpty | src/main/java/org/gabx/expenses/manager/RecurringExpenseManager.java:122 | a cursor already after the limit visits nothing and stays put |
| Schedule.DatesThroughCons | src/main/java/org/gabx/expenses/manager/RecurringExpenseManager.java:122-130 | one iteration: a cursor on or before the limit is visited and the loop continues from the next step |
| Schedule.IterateAscending | src/main/java/org/gabx/expenses/manager/RecurringExpenseManager.java:122-130 | for any strictly increasing step rule, the i-th iterate lies strictly before the j-th whenever i < j |
| Schedule.StepNAscending | src/main/java/org/gabx/expenses/manager/RecurringExpenseManager.java:122-130 | the n-th step date from a cursor strictly increases with n, for every frequency |
| Schedule.FirstAfterIsFixed | src/main/java/org/gabx/expenses/manager/RecurringExpenseManager.java:122-133 | rerunning the loop from where it stopped visits nothing and leaves the cursor where it is |
| Schedule.CatchUpExample | src/main/java/org/gabx/expenses/manager/RecurringExpenseManager.java:121-133 | a monthly cursor on 2024-01-15 caught up on 2024-04-20 visits Jan 15, Feb 15, Mar 15 and Apr 15, then stops on May 15 |
| RecurringExpenses.IsDueCharacterised | src/main/java/org/gabx/expenses/transactions/RecurringExpense.java:139-141 | due iff active and the cursor is on or before the date; an inactive template is never due; due stays due on later dates |
| RecurringExpenses.AdvanceMovesCursor | src/main/java/org/gabx/expenses/transactions/RecurringExpense.java:96-120 | advancing changes only the cursor; with no frequency it is a no-op, otherwise the cursor moves strictly forward |
| RecurringExpenses.AdvanceAsWrittenStalls | src/main/java/org/gabx/expenses/transactions/RecurringExpense.java:103-119 | as written, advancing a FOUR_WEEKS template leaves it unchanged, while the intended advance moves it; for other frequencies the two agree |
| RecurringExpenses.CreationIgnoresStartDate | src/main/java/org/gabx/expenses/transactions/RecurringExpense.java:40-72 | constructing on day d, setting a start date, then setting frequency f leaves the cursor on Step(d, f) and the start date as set |
| RecurringExpenses.DecimalRoundTrip | src/main/java/org/gabx/expenses/transactions/RecurringExpense.java:135 | the decimal digits of the clock reading read back as that number |
| RecurringExpenses.ExpenseIdDistinct | src/main/java/org/gabx/expenses/transactions/RecurringExpense.java:134-136 | two ids for one template coincide exactly when they are generated in the same millisecond |
| RecurringExpenses.InstanceOfTemplate | src/main/java/org/gabx/expenses/transactions/RecurringExpense.java:123-131 | the instance is a plain expense with the template's amount, description and category, dated at the cursor, with an id `RE_<template id>_…` |
| RecurringExpenses.StepDatesInMembers | src/main/java/org/gabx/expenses/transactions/RecurringExpense.java:144-156 | a date is in the window's step list exactly when it is a step date lying in [lo, hi]; the list is strictly ascending |
| RecurringExpenses.StepDatesInCons | src/main/java/org/gabx/expenses/transactions/RecurringExpense.java:144-156 | one loop iteration over the window: past hi nothing is left; otherwise the cursor is kept exactly when it is not before lo, and the walk continues from the next step |
| RecurringExpenses.DueDatesCharacterised | src/main/java/org/gabx/expenses/transactions/RecurringExpense.java:144-156 | due dates are strictly ascending, and a date is among them iff the template is active and the date is a step date from the start date within [nextDueDate, end] |
| RecurringExpenses.LeadingCountFromInside | src/main/java/org/gabx/expenses/transactions/RecurringExpense.java:183-186 | when the window does not begin after the start date, counting until the first date outside the window counts every step date in the window |
| RecurringExpenses.TotalAsWrittenCharacterised | src/main/java/org/gabx/expenses/transactions/RecurringExpense.java:177-189 | the total as written equals count × amount when the start date is not before the window, and is 0 whenever the start date precedes the window |
| RecurringExpenses.MarchStepDates | src/main/java/org/gabx/expenses/transactions/RecurringExpense.java:144-156 | the monthly step dates from 2024-01-15 that lie in March 2024 are exactly 2024-03-15 |
| RecurringExpenses.TotalAsWrittenMissesOccurrence | src/main/java/org/gabx/expenses/transactions/RecurringExpense.java:183 | a monthly template started 2024-01-15 has one occurrence in March 2024, yet the as-written total for March is 0 |
| RecurringExpenses.RecurringExpense.constructor | src/main/java/org/gabx/expenses/transactions/RecurringExpense.java:40-45 | a new template is active, with start date and cursor today and no frequency |
| RecurringExpenses.RecurringExpense.UpdateNextDueDate | src/main/java/org/gabx/expenses/transactions/RecurringExpense.java:96-120 | the new state is the old one advanced once |
| RecurringExpenses.RecurringExpense.SetFrequency | src/main/java/org/gabx/expenses/transactions/RecurringExpense.java:52-55 | assigns the frequency, then advances exactly once |
| RecurringExpenses.RecurringExpense.SetStartDate | src/main/java/org/gabx/expenses/transactions/RecurringExpense.java:69-72 | assigns the start date, then advances exactly once |
| RecurringExpenses.RecurringExpense.SetNextDueDate | src/main/java/org/gabx/expenses/transactions/RecurringExpense.java:61-63 | only the cursor changes |
| RecurringExpenses.RecurringExpense.SetActive | src/main/java/org/gabx/expenses/transactions/RecurringExpense.java:78-80 | only the active flag changes |
| RecurringExpenses.RecurringExpense.SetCategory | src/main/java/org/gabx/expenses/transactions/Expense.java:19-24 | only the category changes, and the expense registry gains the name if it was absent |
| RecurringExpenses.RecurringExpense.CreateExpenseInstance | src/main/java/org/gabx/expenses/transactions/RecurringExpense.java:123-131 | returns the template's instance and registers its category; the template is not modified |
| RecurringExpenses.RecurringExpense.IsDueOn | src/main/java/org/gabx/expenses/transactions/RecurringExpense.java:139-141 | agrees with the due test on the template's state |
| RecurringExpenses.RecurringExpense.GetDueDatesUpTo | src/main/java/org/gabx/expenses/transactions/RecurringExpense.java:144-156 | the stepping loop returns exactly the due dates (see DueDatesCharacterised) |
| RecurringExpenses.RecurringExpense.CalculateTotalForDateRange | src/main/java/org/gabx/expenses/transactions/RecurringExpense.java:177-189 | as written for the lower bound (a start date before the window gives 0), with the corrected four-weekly step; the result is the as-written total (0 when inactive) |
| RecurringExpenses.RecurringExpense.CalculateTotalForDateRangeCorrected | src/main/java/org/gabx/expenses/transactions/RecurringExpense.java:177-189 | the corrected loop returns the number of step dates in the window times the amount (0 when inactive) |
| RecurringExpenseManagers.FindIndex | src/main/java/org/gabx/expenses/manager/RecurringExpenseManager.java:47-52 | the result is the first index carrying the id, and None exactly when no template carries it |
| RecurringExpenseManagers.ActiveCharacterised | src/main/java/org/gabx/expenses/manager/RecurringExpenseManager.java:40-44 | the active list is a subsequence in list order holding exactly the active templates |
| RecurringExpenseManagers.DueOnCharacterised | src/main/java/org/gabx/expenses/manager/RecurringExpenseManager.java:55-59 | in list order, exactly the active templates whose cursor is on or before the date |
| RecurringExpenseManagers.DueBetweenCharacterised | src/main/java/org/gabx/expenses/manager/RecurringExpenseManager.java:62-70 | in list order, exactly the active templates with lo <= cursor <= hi |
| RecurringExpenseManagers.UpcomingCharacterised | src/main/java/org/gabx/expenses/manager/RecurringExpenseManager.java:73-85 | a permutation of the templates due in [today, today + n], sorted by cursor, with equal cursors kept in list order |
| RecurringExpenseManagers.UpcomingNegativeWindow | src/main/java/org/gabx/expenses/manager/RecurringExpenseManager.java:73-85 | a negative look-ahead gives an empty list |
| RecurringExpenseManagers.ByCategoryKeys | src/main/java/org/gabx/expenses/manager/RecurringExpenseManager.java:156-163 | the keys are exactly the categories of the active templates |
| RecurringExpenseManagers.ByCategoryValues | src/main/java/org/gabx/expenses/manager/RecurringExpenseManager.java:156-163 | each value is the sum of amounts of the active templates of that category, and the values add up to the active total |
| RecurringExpenseManagers.ByFrequencyKeys | src/main/java/org/gabx/expenses/manager/RecurringExpenseManager.java:166-173 | the keys are exactly the frequencies of the active templates |
| RecurringExpenseManagers.ByFrequencyValues | src/main/java/org/gabx/expenses/manager/RecurringExpenseManager.java:166-173 | each value is the sum of amounts of the active templates of that frequency, and the values add up to the active total |
| RecurringExpenseManagers.RangeTotalsAppend | src/main/java/org/gabx/expenses/manager/RecurringExpenseManager.java:149-152 | the sum of range totals splits over a concatenation |
| RecurringExpenseManagers.TotalMonthlyAppend | src/main/java/org/gabx/expenses/manager/RecurringExpenseManager.java:144-153 | adding a template raises the monthly total by its total for the month, and by nothing when it is inactive |
| RecurringExpenseManagers.RemoveIdCharacterised | src/main/java/org/gabx/expenses/manager/RecurringExpenseManager.java:29-32 | removal keeps the others in order, drops every template with the id, and an unknown id changes nothing |
| RecurringExpenseManagers.ToggleIdCharacterised | src/main/java/org/gabx/expenses/manager/RecurringExpenseManager.java:187-193 | toggling flips only the active flag of the first match and nothing else; an unknown id changes nothing; toggling twice restores the list |
| RecurringExpenseManagers.UpdateIdCharacterised | src/main/java/org/gabx/expenses/manager/RecurringExpenseManager.java:176-184 | the first match is replaced by the update carrying the id, which stays the first match; all else is kept; an unknown id changes nothing |
| RecurringExpenseManagers.DueGeneratedCharacterised | src/main/java/org/gabx/expenses/manager/RecurringExpenseManager.java:88-107 | one expense per due template, the k-th for the k-th due template, dated at its pre-advance cursor (not at the processing date) and tagged with its id |
| RecurringExpenseManagers.ProcessedOnCharacterised | src/main/java/org/gabx/expenses/manager/RecurringExpenseManager.java:92-100 | a template not due is untouched; a due one is advanced once, which moves only its cursor, strictly forward |
| RecurringExpenseManagers.OccurrencesAt | src/main/java/org/gabx/expenses/manager/RecurringExpenseManager.java:122-127 | the k-th occurrence generated for a template is the occurrence on its k-th date |
| RecurringExpenseManagers.CaughtUpCharacterised | src/main/java/org/gabx/expenses/manager/RecurringExpenseManager.java:114-134 | only overdue templates change, and only the cursor; it moves to the step date just after the last missed date, which is after today; the first missed date is the old cursor |
| RecurringExpenseManagers.CatchUpLeavesNothingOverdue | src/main/java/org/gabx/expenses/manager/RecurringExpenseManager.java:110-141 | after the catch-up no template is overdue |
| RecurringExpenseManagers.NothingOverdueGeneratesNothing | src/main/java/org/gabx/expenses/manager/RecurringExpenseManager.java:114-117 | with nothing overdue the catch-up generates nothing and changes nothing |
| RecurringExpenseManagers.CatchUpIdempotent | src/main/java/org/gabx/expenses/manager/RecurringExpenseManager.java:110-141 | a second catch-up with the same today generates nothing and changes no template |
| RecurringExpenseManagers.CatchUpBackfills | src/main/java/org/gabx/expenses/manager/RecurringExpenseManager.java:119-130 | every missed date of every overdue template has its occurrence among the generated expenses |
| RecurringExpenseManagers.CatchUpGeneratesOnlyMissed | src/main/java/org/gabx/expenses/manager/RecurringExpenseManager.java:119-130 | every generated expense is the occurrence of an overdue template, dated at one of its missed dates |
| RecurringExpenseManagers.RegisterAllCharacterised | src/main/java/org/gabx/expenses/transactions/Expense.java:19-24 | registering the generated expenses' categories keeps earlier names in place, preserves duplicate-freedom, and registers every generated category |
| RecurringExpenseManagers.RegisterAllAppend | src/main/java/org/gabx/expenses/transactions/Expense.java:19-24 | registering two batches is registering their concatenation |
| RecurringExpenseManagers.RecurringExpenseManager.constructor | src/main/java/org/gabx/expenses/manager/RecurringExpenseManager.java:14-20 | the manager starts with the loaded templates and the given ledger, and has saved nothing |
| RecurringExpenseManagers.RecurringExpenseManager.Save | src/main/java/org/gabx/expenses/manager/RecurringExpenseManager.java:237-239 | saving counts one write and changes no template |
| RecurringExpenseManagers.RecurringExpenseManager.SaveIfGenerated | src/main/java/org/gabx/expenses/manager/RecurringExpenseManager.java:102-104 | saves exactly when something was generated |
| RecurringExpenseManagers.RecurringExpenseManager.AddRecurringExpense | src/main/java/org/gabx/expenses/manager/RecurringExpenseManager.java:23-26 | appends the template at the end, keeps the others in order, and saves |
| RecurringExpenseManagers.RecurringExpenseManager.RemoveRecurringExpense | src/main/java/org/gabx/expenses/manager/RecurringExpenseManager.java:29-32 | the new list is the old one without the id's templates (see RemoveIdCharacterised); no new object appears; saves |
| RecurringExpenseManagers.RecurringExpenseManager.ToggleRecurringExpenseStatus | src/main/java/org/gabx/expenses/manager/RecurringExpenseManager.java:187-193 | the new list is ToggleId of the old one; it saves only when the id was found |
| RecurringExpenseManagers.RecurringExpenseManager.ReplaceAt | src/main/java/org/gabx/expenses/manager/RecurringExpenseManager.java:179-181 | u, with its id set, takes slot i and every other slot keeps its template; the list stays free of shared objects |
| RecurringExpenseManagers.RecurringExpenseManager.UpdateRecurringExpense | src/main/java/org/gabx/expenses/manager/RecurringExpenseManager.java:176-184 | the update object takes the first match's place with its id forced; an unknown id changes nothing and does not save |
| RecurringExpenseManagers.RecurringExpenseManager.ProcessTemplate | src/main/java/org/gabx/expenses/manager/RecurringExpenseManager.java:92-100 | a due template yields its occurrence at its cursor, appended to the ledger, and is advanced; otherwise nothing happens |
| RecurringExpenseManagers.RecurringExpenseManager.ProcessAt | src/main/java/org/gabx/expenses/manager/RecurringExpenseManager.java:92-100 | processing template i extends the processed prefix by one |
| RecurringExpenseManagers.RecurringExpenseManager.ProcessEach | src/main/java/org/gabx/expenses/manager/RecurringExpenseManager.java:92-100 | the loop processes every template; the list itself is not changed |
| RecurringExpenseManagers.RecurringExpenseManager.ProcessRecurringExpenses | src/main/java/org/gabx/expenses/manager/RecurringExpenseManager.java:88-107 | returns the due expenses (see DueGeneratedCharacterised), appends them to the ledger, advances exactly the due templates, registers their categories, and saves only when something was generated |
| RecurringExpenseManagers.RecurringExpenseManager.GenerateOccurrence | src/main/java/org/gabx/expenses/manager/RecurringExpenseManager.java:123-127 | one occurrence on the given date, tagged with the template id, appended to the ledger |
| RecurringExpenseManagers.RecurringExpenseManager.GenerateMissed | src/main/java/org/gabx/expenses/manager/RecurringExpenseManager.java:121-130 | the inner loop generates one occurrence per missed date in order and leaves the cursor on the first step date after today |
| RecurringExpenseManagers.RecurringExpenseManager.CatchUpTemplate | src/main/java/org/gabx/expenses/manager/RecurringExpenseManager.java:119-134 | an overdue template gets its missed occurrences and its caught-up cursor; any other is untouched |
| RecurringExpenseManagers.RecurringExpenseManager.CatchUpAt | src/main/java/org/gabx/expenses/manager/RecurringExpenseManager.java:119-134 | catching up template i extends the caught-up prefix by one |
| RecurringExpenseManagers.RecurringExpenseManager.CatchUpEach | src/main/java/org/gabx/expenses/manager/RecurringExpenseManager.java:119-134 | the loop catches up every template; the list itself is not changed |
| RecurringExpenseManagers.RecurringExpenseManager.ProcessOverdueRecurringExpenses | src/main/java/org/gabx/expenses/manager/RecurringExpenseManager.java:110-141 | returns the backfilled expenses (see CatchUpBackfills and CatchUpGeneratesOnlyMissed), appends them to the ledger, moves each overdue cursor past today, and saves only when something was generated |
| Ledger.TransactionManager.constructor | src/main/java/org/gabx/expenses/manager/TransactionManager.java:13-15 | a fresh ledger is empty |
| Ledger.TransactionManager.AddTransaction | src/main/java/org/gabx/expenses/manager/TransactionManager.java:17-19 | appends one element at the end and changes nothing else |
| Ledger.InPeriodAppend | src/main/java/org/gabx/expenses/manager/TransactionManager.java:17-35 | appending grows a month's selection by the new transaction exactly when it is of that kind and that month |
| Ledger.AppendOutsidePeriod | src/main/java/org/gabx/expenses/manager/TransactionManager.java:17-55 | appending a transaction dated outside (month, year) changes neither total nor either breakdown for that month |
| Ledger.AppendExpenseInPeriod | src/main/java/org/gabx/expenses/manager/TransactionManager.java:29-35 | appending an expense in (month, year) raises total expenses by its amount and leaves income unchanged |
| Ledger.AppendIncomeInPeriod | src/main/java/org/gabx/expenses/manager/TransactionManager.java:21-27 | appending an income in (month, year) raises total income by its amount and leaves expenses unchanged |
| Ledger.ByCategoryCharacterised | src/main/java/org/gabx/expenses/manager/TransactionManager.java:37-55 | the keys are exactly the categories of that kind's transactions in the month, and each value is the sum of their amounts |
| Ledger.ByCategorySumsToTotal | src/main/java/org/gabx/expenses/manager/TransactionManager.java:29-45 | the breakdown's values add up to the month's total |
| Ledger.MonthOutOfRange | src/main/java/org/gabx/expenses/manager/TransactionManager.java:57-59 | a month outside 1..12 gives zero totals and empty breakdowns |
| Categories.DefaultsDistinct | src/main/java/org/gabx/expenses/transactions/Expense.java:8-11 | the initial expense registry has eight distinct names and the income one five |
| Categories.EnsureExtends | src/main/java/org/gabx/expenses/transactions/Expense.java:37-43 | after adding, the name is present, earlier entries are kept in place, at most one entry is added, and the list is unchanged iff the name was present |
| Categories.EnsurePreservesDistinct | src/main/java/org/gabx/expenses/transactions/Expense.java:37-43 | adding keeps a duplicate-free registry duplicate-free |
| Categories.EnsureIdempotent | src/main/java/org/gabx/expenses/transactions/Income.java:35-41 | adding the same name twice is adding it once |
| Categories.CategoryRegistry.ForExpenses | src/main/java/org/gabx/expenses/transactions/Expense.java:8-11 | the initial expense registry |
| Categories.CategoryRegistry.ForIncome | src/main/java/org/gabx/expenses/transactions/Income.java:8-10 | the initial income registry |
| Categories.CategoryRegistry.AddCategory | src/main/java/org/gabx/expenses/transactions/Expense.java:37-43 | appends the name only when absent |
| Categories.CategoryRegistry.SetCategory | src/main/java/org/gabx/expenses/transactions/Income.java:18-23 | the transaction gets the category; the registry then holds it, keeps its prior entries in order, and grows by at most one |
| Categories.CategoryRegistry.GetCategories | src/main/java/org/gabx/expenses/transactions/Expense.java:45-47 | returns a value equal to the registry, which later changes to the copy cannot affect |
| Categories.CategoryRegistry.SetCategories | src/main/java/org/gabx/expenses/transactions/Expense.java:49-51 | replaces the registry wholesale |
| DisplayUtils.CenterTextLength | src/main/java/org/gabx/expenses/ui/DisplayUtils.java:40-43 | the result is exactly as long as the larger of the width and the text's length, with Java's truncating division |
| DisplayUtils.CenterTextNoRoom | src/main/java/org/gabx/expenses/ui/DisplayUtils.java:41-42 | a width not larger than the text returns the text |
| DisplayUtils.CenterTextPadding | src/main/java/org/gabx/expenses/ui/DisplayUtils.java:41-42 | with room to spare the text sits at offset left = (width - length)/2, spaces around it, and left ≤ right ≤ left+1 |
| DisplayUtils.TruncateShape | src/main/java/org/gabx/expenses/ui/DisplayUtils.java:45-50 | a text that fits is unchanged; a longer one becomes exactly maxLength long, its first maxLength-3 characters followed by "..." |
| DisplayUtils.TruncateIdempotent | src/main/java/org/gabx/expenses/ui/DisplayUtils.java:45-50 | with maxLength ≥ 3 the result fits and truncating again changes nothing |
| App.HasExpenseFor | src/main/java/org/gabx/expenses/App.java:265-270 | true iff the ledger holds an expense tagged with the template id and dated at the date |
| App.HasExpenseForAppend | src/main/java/org/gabx/expenses/App.java:265-270 | appending to the ledger never removes a match |
| App.HasUnprocessedPeriod | src/main/java/org/gabx/expenses/App.java:233-244 | the walk from the cursor returns true exactly when some step date through today lacks a matching expense |
| App.StartupCandidatesCharacterised | src/main/java/org/gabx/expenses/App.java:228-229 | the scan sees exactly the active templates whose cursor is on or after 2020-01-01 and strictly before today |
| App.CandidatesHaveFrequency | src/main/java/org/gabx/expenses/App.java:228-243 | every template the scan sees is overdue, so it has a frequency to step with |
| App.AnyUnprocessed | src/main/java/org/gabx/expenses/App.java:233-244 | true iff some candidate has an unprocessed period |
| App.IsNoExactly | src/main/java/org/gabx/expenses/App.java:250 | the answer declines exactly when it is "no" in some letter case; the empty default and "yes" accept |
| App.CatchUpProcessesEveryPeriod | src/main/java/org/gabx/expenses/App.java:246-252 | after the catch-up, no template that was overdue has an unprocessed period in the extended ledger |
| App.CatchUpSettlesStartup | src/main/java/org/gabx/expenses/App.java:225-231 | after the catch-up the scan sees no template, so a second start finds nothing to do |
| App.ProcessOverdueOnStartup | src/main/java/org/gabx/expenses/App.java:225-258 | nothing changes unless some candidate is unprocessed and the answer is not "no"; otherwise the effect is exactly that of the catch-up |

## Left out

- Console I/O, prompts, `printf` output, the menu loops and the handler classes are not modelled. Only the answer string the startup prompt returns is a parameter.
- `DataPersistenceService` (JSON files, backups) is not part of this model. The manager's constructor takes the loaded templates. `saveData` is a ghost counter of writes, `saves`.
- `LocalDate.now()` and `System.currentTimeMillis()` are parameters. One clock reading `millis` serves a whole call, so expenses generated in one call share the clock part of their id.
- Money is `double` in the source; here it is an integer. Binary rounding of sums is not modelled.
- Java `null` fields are not modelled. An unset frequency is `None`. An unset text field is `""`. Dates are never null, so the null-date branches of `updateNextDueDate` (`RecurringExpense.java:97,101`) are not modelled.
- Stepping a template with no frequency throws a `NullPointerException`. Each operation that would step requires the frequency to be set, only in the cases where the loop steps: `SteppingDefined`, `LeadingDefined`, `OverdueHaveFrequency`, `ActiveHaveFrequency`.
- RecurringExpenseManagers.MissedDates, RecurringExpenseManagers.CaughtUp: for a template with no frequency they return no dates and an unchanged template. That input throws in the source, and the methods exclude it.
- App.ProcessOverdueOnStartup: it requires every overdue template to have a frequency. The source can, by short-circuiting, return early for some such templates without throwing.
- The Java code first collects the due (or overdue) templates and then processes them. The model processes the list element by element instead. This is the same because the objects are distinct (`Valid()`) and processing one template does not change another's due test.
- The manager's queries return template values (`TemplateState`), not references to the live objects. Aliasing of returned objects is not modelled.
- RecurringExpenseManagers.TotalMonthly: it sums the corrected range totals (see Findings), not the as-written ones.
- CalculateTotalForDateRange, GetDueDatesUpTo, TotalMonthly: they step with the corrected four-weekly rule (+28 days). In the source, `getNextDateForFrequency` (`RecurringExpense.java:159-174`) returns a FOUR_WEEKS date unchanged. So for an active FOUR_WEEKS template, `calculateTotalForDateRange` loops forever once its start date lies in the window, `getDueDatesUpTo` loops forever once its start date is on or before the end date, and `getTotalMonthlyRecurringExpenses` hangs through the first. A Dafny method terminates, so the model returns the 28-day count or list instead.
- UpdateNextDueDate, SetFrequency, SetStartDate, ProcessRecurringExpenses: they advance a FOUR_WEEKS cursor by 28 days. In the source, `updateNextDueDate` (`RecurringExpense.java:103-119`) has no FOUR_WEEKS case and leaves the cursor where it was, so each `processRecurringExpenses` call regenerates the same date. The as-written advance is `AdvanceAsWritten`; `AdvanceAsWrittenStalls` proves that it stalls (Findings row 1).
- UpdateRecurringExpense: `u` must be a fresh object or the matched template itself. The source also accepts a template held in another slot. Then two slots would share one object, and `setId` would rename both. The model keeps the list free of shared objects (`Valid()`), so it leaves that case out.
- App.ProcessOverdueOnStartup: one `today` serves both the startup scan and the catch-up. The source reads `LocalDate.now()` again inside `processOverdueRecurringExpenses` (`RecurringExpenseManager.java:111`), after a prompt that may wait past midnight.
- DisplayUtils.CenterText, DisplayUtils.Truncate: a string's length is its number of characters (Unicode scalar values). Java's `length()` and `substring` count UTF-16 code units. For text outside the Basic Multilingual Plane the padding differs: Java pads "😀abc" to width 10 with 2 spaces on the left, the model with 3. Java's `truncate` can also split a surrogate pair, which the model cannot.
- Dates: years are unbounded integers. `LocalDate` throws `DateTimeException` for years outside -999,999,999..999,999,999, and the model has no such error.
- `App.java:279` names `FOUR_WEEKLY`; the enum constant is `FOUR_WEEKS` (`RecurringExpense.java:12`). The model has one four-weekly frequency.
- `Expense` defines no `setOriginalRecurringId`, although the manager calls it (`RecurringExpenseManager.java:94,125`). The expense record carries `originalRecurringId` as an `Option`.
- `getAllTransactions` is not defined in `TransactionManager`, although App calls it. The model reads the ledger's transaction list. The ledger App reads is assumed to be the manager's.
- The invalid-frequency fallback of the handlers, which picks FOUR_WEEKS, is outside this model.
- Transaction getters and setters other than setCategory are plain field updates on the datatype.
- App.IsNo: it folds ASCII letters only. For "no" this is exact, since no other character case-folds to 'n' or 'o'.

## Findings

| source | as written | input that shows it | evidently intended | confidence | as-written member | corrected member |
|---|---|---|---|---|---|---|
| src/main/java/org/gabx/expenses/manager/RecurringExpenseManager.java:219-234 | the template's and the manager's step switches have no FOUR_WEEKS case, so that frequency returns the date unchanged; the catch-up loop `while (!current.isAfter(today))` never ends for a due FOUR_WEEKS template, and updateNextDueDate never moves it | a FOUR_WEEKS template with nextDueDate on or before today | +4 weeks, as in App's step | not executed | Schedule.AsWrittenCatchUpNeverEnds | Schedule.StepIncreases |
| src/main/java/org/gabx/expenses/transactions/RecurringExpense.java:183 | calculateTotalForDateRange counts from startDate and stops at the first date before `start`, so it returns 0 whenever the template started before the window | monthly template started 2024-01-15, window March 2024: occurrence 2024-03-15 but total 0 | count the step dates that lie inside [start, end] | not executed | RecurringExpenses.TotalAsWrittenMissesOccurrence | RecurringExpenses.RecurringExpense.CalculateTotalForDateRangeCorrected |
