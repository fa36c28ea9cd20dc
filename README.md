# Capacitor personal-finance core, modelled in Dafny

This project models the core of Capacitor, a personal-finance ledger written in
TypeScript, and proves properties of the model. It covers:

- **Financial modes.** A context holds one of three modes: budgeting, savings or
  investment. Each mode keeps running totals of the transactions it sees,
  projects recommendations and reports from them, and may hand the context
  over to a fresh mode of another kind. The mode objects, the context and the
  user are classes with fields (module `Finance`). The rules they follow are
  functions on values (module `ModeRules`). Each mode method is proved
  against those functions.
- **Recommendation engine.** Spending, savings and investment analyses of a
  transaction list, merged and stably sorted by priority
  (module `RecommendationEngine`).
- **Budget strategies.** The 50/30/20 rule and zero-based budgeting, each an
  allocation table plus advice, and the holder of the active strategy
  (module `BudgetStrategies`). The 50/30/20 advice loop is a method proved
  against a fold.
- **Goals and goal tracking.** Guarded withdrawals, and a status recomputed
  after each change (modules `Goals` and `GoalTracking`).
- **Categorization.** Keyword categorization with user training, in-place bulk
  categorization, and similar-transaction search (module `Categorization`).
- **Reports.** Income against expenses with a monthly series, expenses by
  category, savings-goal progress and net worth (module `Reporting`).
- **Accounts and transactions.** The account hierarchy: individual accounts
  and account groups (module `Composite`). The ledger transaction with its
  de-duplicated tags (module `Ledger`).

Shared pieces:

- `Types`: the enumerations, the transaction snapshot `Tx` that every engine
  reads, and `Recommendation`.
- `OrderedMaps`: a JavaScript `Map` with insertion order, and the running-total
  idiom `m.set(k, (m.get(k) || 0) + a)`.
- `Sorting`: the stable `Array.prototype.sort` with a numeric comparator.
- `Aggregates`: the per-category expense totals that three components build
  the same way.
- `Strings`: lower-casing, `includes`, integer formatting and code-unit order.
- `JsNumber`: JavaScript division by zero (infinities and NaN), where the
  code divides without a guard.

Amounts are exact reals. A transaction's date is its year and 0-based month.
Goal instants are milliseconds, and "now" is a parameter.

Among the properties proved:

- **The savings-to-budgeting hand-over never fires.** Savings mode's streak
  starts at 0 and never goes negative, so the guard `savingsStreak < 0` is
  always false (`SavingsRunInvariant`, `HandOverCases`).
- **Alternative investments are never advised.** The risk profile never
  leaves its initial medium setting (`InvestmentAdviceUnderInvariant`).
- **Every significant category is flagged.** With no negative expense, at
  most three categories can each take more than a quarter of spending, so
  slicing the top three loses none of them (`SignificantCategoryFlagged`).
- **The monthly series is not chronological.** It is sorted by the unpadded
  `"Y-M"` key in code-unit order, so "2024-10" comes before "2024-2"
  (`OctoberBeforeFebruary`).
- **Zero-based advice is silent between 80% and 100%.** Zero-based
  advice gives nothing for a category whose spending is between 80% and 100%
  of its allocation (`Verdict`). Without income it flags each of the ten
  allocated categories whose expenses add up to more than zero as overspent;
  expenses in a category outside the table get no message at all
  (`ZeroBasedWithoutIncome`).

- **A goal with a deadline is never merely in progress.** Once something is
  saved and the target is not reached, a goal with a deadline is on track or
  falling behind; "in progress" is left for goals without a deadline
  (`DeadlineDecidesPace`).

## Model

| member | source | states |
|---|---|---|
| Types.Where | src/services/reporting/ReportingService.ts:17-23 | `filter`: keeps only transactions that satisfy the predicate, taken from the input, and never more than the input |
| Types.WhereAppend | src/services/reporting/ReportingService.ts:17-23 | `filter` works element by element: a concatenation is filtered part by part, so the kept transactions keep their order and their repetitions |
| Types.WhereSingle | src/services/reporting/ReportingService.ts:17-23 | a single transaction is kept exactly when it satisfies the predicate |
| JsNumber.Div | src/core/models/Goal.ts:83-85 | division by zero gives +Infinity, -Infinity or NaN by the sign of the dividend; otherwise the real quotient |
| JsNumber.Scale | src/core/models/Goal.ts:84 | `* 100` keeps a value finite exactly when it was finite and scales it |
| JsNumber.GeFinite | src/core/models/Goal.ts:105 | `>=` is the real order on finite numbers and false whenever NaN is involved |
| Strings.Lower | src/services/categorization/TransactionCategorizationService.ts:34 | `toLowerCase` keeps the length and lower-cases character by character |
| Strings.LowerIdempotent | src/services/categorization/TransactionCategorizationService.ts:34-38 | lower-casing an already lower-cased description changes nothing, so trained keys match lower-cased descriptions |
| Strings.Includes | src/services/categorization/TransactionCategorizationService.ts:44 | `includes` holds exactly when the substring occurs at some position |
| Strings.NatToString | src/services/reporting/ReportingService.ts:133 | a number formats as a non-empty string of decimal digits |
| Strings.NatToStringValue | src/services/reporting/ReportingService.ts:133 | reading the formatted digits back gives the number |
| Strings.NatToStringInjective | src/services/reporting/ReportingService.ts:133 | two numbers format alike exactly when they are equal |
| Strings.IntToString | src/services/reporting/ReportingService.ts:133 | an integer formats as a non-empty string |
| Strings.IntToStringInjective | src/services/reporting/ReportingService.ts:133 | two integers format alike exactly when they are equal |
| Strings.LexLeTotal | src/services/reporting/ReportingService.ts:148 | the key order used by `localeCompare` relates any two keys |
| Strings.LexLeTransitive | src/services/reporting/ReportingService.ts:148 | the key order is transitive |
| Strings.LexLeAntisymmetric | src/services/reporting/ReportingService.ts:148 | two keys ordered both ways are equal |
| Strings.SortStringsFacts | src/services/reporting/ReportingService.ts:147-148 | sorting keys with `localeCompare` is a permutation, in non-decreasing key order |
| Strings.MonthTenBeforeMonthTwo | src/services/reporting/ReportingService.ts:133-148 | with an unpadded month, "2024-10" sorts strictly before "2024-2" |
| OrderedMaps.Empty | src/patterns/state/BudgetingState.ts:9 | a new `Map` is well formed and has no keys |
| OrderedMaps.Put | src/services/reporting/ReportingService.ts:143 | `set` stores the value; an existing key keeps its position and a new key goes last |
| OrderedMaps.AddTo | src/patterns/state/BudgetingState.ts:22-23 | `set(k, (get(k) \|\| 0) + a)` adds `a` to `k` only, adds `k` last if new, and leaves every other key's value alone |
| OrderedMaps.AddToSum | src/patterns/state/SavingsState.ts:29-31 | the running-total update adds exactly `a` to the sum of all values |
| OrderedMaps.Entries | src/services/recommendations/RecommendationEngine.ts:38 | `Array.from(m.entries())` pairs each key, in insertion order, with its value |
| OrderedMaps.EntriesComplete | src/services/recommendations/RecommendationEngine.ts:38 | every key of the map appears among the entries with its value |
| OrderedMaps.EntriesTotal | src/services/reporting/ReportingService.ts:57 | adding up the entries' values gives the sum of the map |
| OrderedMaps.SumOfPermutation | src/services/reporting/ReportingService.ts:57-65 | a sum over keys does not depend on their order |
| Sorting.SortByFacts | src/services/recommendations/RecommendationEngine.ts:21 | the numeric-comparator sort is a permutation, sorted by key, and stable: equal keys keep their input order |
| Sorting.SortByTotal | src/services/recommendations/RecommendationEngine.ts:38-45 | sorting neither adds nor loses anything from a total |
| Aggregates.ExpenseTotalsGet | src/services/reporting/ReportingService.ts:48-55 | each category's entry is the sum of that category's expenses |
| Aggregates.ExpenseTotalsKeys | src/services/reporting/ReportingService.ts:48-55 | a category is a key exactly when some expense is in it |
| Aggregates.ExpenseTotalsSum | src/services/reporting/ReportingService.ts:48-57 | all entries together add up to the sum of all expenses |
| Aggregates.ExpenseTotalsFacts | src/services/recommendations/RecommendationEngine.ts:28-35 | the three facts above, for every category at once |
| Aggregates.ExpenseTotalsNonNegative | src/services/recommendations/RecommendationEngine.ts:28-35 | with no negative expense, no category total is negative |
| Ledger.WithTag | src/core/models/Transaction.ts:37-41 | `addTag` appends a tag only when absent: the result holds the old tags and the new one, keeps the old tags as a prefix, and has no duplicates if the old list had none |
| Ledger.WithTagIdempotent | src/core/models/Transaction.ts:37-41 | adding the same tag twice is the same as adding it once |
| Ledger.Transaction.constructor | src/core/models/Transaction.ts:15-31 | every field is the argument given, and the tag list is empty |
| Ledger.Transaction.Snapshot | src/core/models/Transaction.ts:5-12 | what the engines read is the transaction's current category, amount, kind, description and date |
| Ledger.Transaction.GetTags | src/core/models/Transaction.ts:33-35 | returns the tag list |
| Ledger.Transaction.AddTag | src/core/models/Transaction.ts:37-41 | the new tag list is `WithTag` of the old one, and it stays free of duplicates |
| Goals.Progress | src/core/models/Goal.ts:83-85 | progress is `current / target * 100`, not clamped; it is not finite for a zero target |
| Goals.ElapsedPercent | src/core/models/Goal.ts:101-105 | the elapsed percentage is elapsed time over total time, times 100; the day conversion cancels out |
| Goals.StatusOf | src/core/models/Goal.ts:87-113 | not started exactly when nothing is saved; achieved exactly when the target is reached; in progress exactly when there is no deadline; on track exactly when the deadline has not passed and progress is at least the elapsed percentage |
| Goals.OnTrackMeansFundedAhead | src/core/models/Goal.ts:99-110 | for a positive target and a deadline after creation, on track exactly when the funded fraction is at least the elapsed fraction, and falling behind otherwise |
| Goals.DeadlineDecidesPace | src/core/models/Goal.ts:93-111 | a partly funded goal with a deadline is on track or falling behind, never merely in progress |
| Goals.Goal.constructor | src/core/models/Goal.ts:14-31 | a new goal has nothing saved, is not started, and records its creation instant |
| Goals.Goal.GetProgress | src/core/models/Goal.ts:83-85 | the goal's progress is `Progress` of its amounts |
| Goals.Goal.UpdateStatus | src/core/models/Goal.ts:87-113 | the new status is `StatusOf` the amounts, deadline, creation and now, and agrees with the amounts |
| Goals.Goal.AddContribution | src/core/models/Goal.ts:69-72 | adds the amount, then recomputes the status |
| Goals.Goal.WithdrawFunds | src/core/models/Goal.ts:74-81 | succeeds exactly when the amount is covered; then subtracts it and recomputes the status; otherwise changes nothing |
| GoalTracking.CreateGoal | src/services/goals/GoalTrackingService.ts:6-18 | a fresh goal with the given fields, not started, is appended to the user's goals |
| GoalTracking.UpdateGoalProgress | src/services/goals/GoalTrackingService.ts:20-22 | exactly a contribution to the goal |
| GoalTracking.WithdrawFromGoal | src/services/goals/GoalTrackingService.ts:24-26 | exactly a withdrawal, passing its outcome through: succeeds exactly when the amount is covered, then subtracts it and recomputes the status; otherwise changes nothing |
| GoalTracking.GoalsByStatus | src/services/goals/GoalTrackingService.ts:36-38 | the goals with that status, all of them, drawn from the list without adding copies |
| GoalTracking.GoalsByStatusAppend | src/services/goals/GoalTrackingService.ts:36-38 | the filter works goal by goal: a concatenation is filtered part by part, so the kept goals keep their order and their repetitions |
| GoalTracking.GoalsByStatusSingle | src/services/goals/GoalTrackingService.ts:36-38 | a single goal is kept exactly when its status matches |
| GoalTracking.StatusFiltersPartition | src/services/goals/GoalTrackingService.ts:36-38 | the five status filters split the goal list between them |
| GoalTracking.IndexOfGoal | src/services/goals/GoalTrackingService.ts:40-42 | the position of the first goal with that id, or the length when there is none |
| GoalTracking.GoalById | src/services/goals/GoalTrackingService.ts:40-42 | `find`: nothing exactly when no goal has the id; otherwise the first goal with it |
| GoalTracking.Ceil | src/services/goals/GoalTrackingService.ts:57 | `Math.ceil`: the least integer not below the argument |
| GoalTracking.MonthsToCompletion | src/services/goals/GoalTrackingService.ts:44-57 | none for a complete goal; no estimate for a contribution that is not positive; otherwise the fewest whole months whose contributions cover what remains |
| GoalTracking.AddMonths | src/services/goals/GoalTrackingService.ts:56-57 | `setMonth(getMonth() + n)` moves the calendar month forward by `n` |
| GoalTracking.EstimatedCompletionDate | src/services/goals/GoalTrackingService.ts:44-60 | today for a complete goal; null exactly for an incomplete goal with no positive contribution; otherwise today plus the months to completion |
| Composite.IndividualAccount.constructor | src/patterns/composite/FinancialComponent.ts:23-27 | the name, initial balance and account type are those given |
| Composite.IndividualAccount.Deposit | src/patterns/composite/FinancialComponent.ts:33-35 | the balance grows by the amount |
| Composite.IndividualAccount.Withdraw | src/patterns/composite/FinancialComponent.ts:37-43 | succeeds exactly when the balance covers the amount, then subtracts it; otherwise the balance is unchanged |
| Composite.SumBalancesAppend | src/patterns/composite/FinancialComponent.ts:73-77 | the `reduce` over balances of a concatenation is the sum of the parts |
| Composite.RemoveFirst | src/patterns/composite/FinancialComponent.ts:62-67 | `indexOf` then `splice(index, 1)`: unchanged when absent, one shorter when present |
| Composite.RemoveFirstRemovesOne | src/patterns/composite/FinancialComponent.ts:62-67 | removal takes away exactly one occurrence of the child |
| Composite.RemoveFirstAt | src/patterns/composite/FinancialComponent.ts:63-65 | at the first occurrence, what precedes stays in front and what follows closes up |
| Composite.IndexOf | src/patterns/composite/FinancialComponent.ts:63 | `indexOf`: the first position holding the child, or "not found" exactly when absent |
| Composite.RemoveAtSum | src/patterns/composite/FinancialComponent.ts:62-77 | closing the gap keeps the rest well formed and takes exactly that child's balance off the sum |
| Composite.AccountGroup.constructor | src/patterns/composite/FinancialComponent.ts:54-56 | a new group has no children and a zero balance |
| Composite.AccountGroup.GetAccounts | src/patterns/composite/FinancialComponent.ts:69-71 | returns the children |
| Composite.AccountGroup.AddAccount | src/patterns/composite/FinancialComponent.ts:58-60 | appends the child; the balance grows by the child's balance |
| Composite.AccountGroup.RemoveAccount | src/patterns/composite/FinancialComponent.ts:62-67 | removes the first occurrence; the balance drops by that child's balance, or is unchanged when it is not a child |
| ModeRules.BudgetingStep | src/patterns/state/BudgetingState.ts:16-24 | every transaction is counted; an expense adds to its category only, and the category becomes a key |
| ModeRules.BudgetingRunTotals | src/patterns/state/BudgetingState.ts:16-24 | after any transactions the counter is their number, and each category's total is the sum of its expenses; the keys are exactly the categories with an expense |
| ModeRules.ReduceAll | src/patterns/state/BudgetingState.ts:44-58 | one reduce-spending recommendation per key, in order, with priority decided by its amount |
| ModeRules.BudgetingAdvice | src/patterns/state/BudgetingState.ts:37-75 | one recommendation per category with expenses, in first-expense order: priority 1 exactly above 100, else 2, saving the whole amount; then the zero-based advice at priority 3 |
| ModeRules.BudgetingAdviceLastIsLeastUrgent | src/patterns/state/BudgetingState.ts:49-65 | every per-category recommendation is more urgent than the closing one |
| ModeRules.BudgetingReports | src/patterns/state/BudgetingState.ts:77-90 | two reports, the first carrying the per-category totals |
| ModeRules.SavingsStep | src/patterns/state/SavingsState.ts:25-37 | a savings-category expense adds to its category, the total and the streak; any other expense resets the streak; other kinds change nothing |
| ModeRules.SavingsStepPreserves | src/patterns/state/SavingsState.ts:25-37 | the step keeps the total equal to the per-category sum, only savings categories recorded, and the streak non-negative |
| ModeRules.SavingsRunInvariant | src/patterns/state/SavingsState.ts:39-43 | from a fresh savings mode, whatever the transactions, the streak is never negative, so the hand-over to budgeting never fires |
| ModeRules.SavingsAdvice | src/patterns/state/SavingsState.ts:52-123 | emergency-fund advice first exactly when the fund is under a quarter of the balance; high-yield advice always; retirement advice exactly when retirement is under 15% of savings; investing advice last exactly above 10000 saved; one item per condition that holds, high-yield right after the emergency-fund advice and directly followed by the retirement advice when that is due; priorities ascending |
| ModeRules.FreshSavingsAdvice | src/patterns/state/SavingsState.ts:55-104 | a fresh savings mode advises the emergency fund exactly when the balance is positive, then the high-yield account |
| ModeRules.SavingsReports | src/patterns/state/SavingsState.ts:125-150 | three reports, the first carrying the per-category savings |
| ModeRules.InvestmentStep | src/patterns/state/InvestmentState.ts:24-28 | an investment adds to its category and the total; nothing else changes, and the risk profile stays |
| ModeRules.InvestmentStepPreserves | src/patterns/state/InvestmentState.ts:24-28 | the step keeps the total equal to the per-category sum and the profile medium |
| ModeRules.InvestmentRunInvariant | src/patterns/state/InvestmentState.ts:14-28 | from a fresh investment mode the invariant holds after any transactions |
| ModeRules.InvestmentAdvice | src/patterns/state/InvestmentState.ts:40-118 | diversification first exactly under three categories; then tax-advantaged, index funds and rebalancing; alternative investments last, exactly for a high profile above 50000; the length is exactly the number of pieces of advice that apply, so none is repeated; priorities ascending |
| ModeRules.InvestmentAdviceUnderInvariant | src/patterns/state/InvestmentState.ts:102 | with the profile fixed at medium, alternative investments are never advised: four recommendations under three categories, three otherwise |
| ModeRules.InvestmentReports | src/patterns/state/InvestmentState.ts:120-157 | four reports, the first carrying the per-category investments |
| ModeRules.Step | src/patterns/state/FinancialState.ts:56-58 | a transaction is handled by the step of the active mode's kind; the totals stay well formed and of that kind |
| ModeRules.HandOver | src/patterns/state/SavingsState.ts:39-49 | budgeting never hands over; in savings mode an investment above 1000 hands over to investment whatever else happens; no mode hands over to itself (investment mode's guard, InvestmentState.ts:30-37, in `HandOverCases`) |
| ModeRules.HandOverCases | src/patterns/state/SavingsState.ts:39-49 | budgeting never hands over; savings hands over only to investment, exactly on an investment above 1000; investment hands over to savings exactly on a large emergency-fund or retirement expense; no mode hands over to itself |
| Finance.BudgetingState.constructor | src/patterns/state/BudgetingState.ts:9-14 | a new budgeting mode has empty totals and no context |
| Finance.BudgetingState.SetContext | src/patterns/state/FinancialState.ts:15-17 | the mode points back to the context |
| Finance.BudgetingState.HandleTransaction | src/patterns/state/BudgetingState.ts:16-35 | the totals become `BudgetingStep` of the old totals; the context is never touched |
| Finance.SavingsState.constructor | src/patterns/state/SavingsState.ts:15-21 | a new savings mode has empty totals satisfying its invariant, and no context |
| Finance.SavingsState.SetContext | src/patterns/state/FinancialState.ts:15-17 | the mode points back to the context |
| Finance.SavingsState.HandleTransaction | src/patterns/state/SavingsState.ts:23-50 | the totals become `SavingsStep` of the old totals and keep the savings invariant; the context switches as `HandOver` decides, to a fresh mode bound to it that is also the user's |
| Finance.SavingsState.Record | src/patterns/state/SavingsState.ts:25-37 | the totals become `SavingsStep` of the old totals and keep the savings invariant (total equal to the per-category sum, streak not negative) |
| Finance.SavingsState.CheckHandOvers | src/patterns/state/SavingsState.ts:39-49 | a negative streak switches to budgeting; then an investment above 1000 switches to investment, which wins when both fire |
| Finance.InvestmentState.constructor | src/patterns/state/InvestmentState.ts:14-20 | a new investment mode has empty totals at medium risk, satisfying its invariant, and no context |
| Finance.InvestmentState.SetContext | src/patterns/state/FinancialState.ts:15-17 | the mode points back to the context |
| Finance.InvestmentState.HandleTransaction | src/patterns/state/InvestmentState.ts:22-38 | the totals become `InvestmentStep` of the old totals and keep the investment invariant (total equal to the per-category sum, medium risk); the context switches to a fresh savings mode exactly as `HandOver` decides |
| Finance.InvestmentState.Record | src/patterns/state/InvestmentState.ts:24-28 | the totals become `InvestmentStep` of the old totals and keep the investment invariant |
| Finance.InvestmentState.CheckHandOver | src/patterns/state/InvestmentState.ts:30-37 | a large emergency-fund or retirement expense switches the context to a fresh savings mode; otherwise the mode stays |
| Finance.FinancialStateContext.constructor | src/patterns/state/FinancialState.ts:34-39 | the initial mode is adopted as by a transition: active, bound to the context, and the user's current mode |
| Finance.FinancialStateContext.TransitionTo | src/patterns/state/FinancialState.ts:41-50 | the mode becomes active, points back to the context, and becomes the user's current mode; its totals are untouched |
| Finance.FinancialStateContext.GetState | src/patterns/state/FinancialState.ts:52-54 | returns the active mode |
| Finance.FinancialStateContext.HandleTransaction | src/patterns/state/FinancialState.ts:56-58 | the active mode's totals take one `Step`, and the context switches as `HandOver` decides |
| Finance.FinancialStateContext.GenerateRecommendations | src/patterns/state/FinancialState.ts:60-62 | the active mode's advice, for the context's own user's total balance |
| Finance.FinancialStateContext.GetStateSpecificReports | src/patterns/state/FinancialState.ts:64-66 | the active mode's reports |
| Composite.WithoutNamed | src/core/models/User.ts:37-39 | the components not named `n`, all of them, drawn from the list without adding copies |
| Composite.WithoutNamedUnchanged | src/core/models/User.ts:37-39 | nothing is removed when no component has that name |
| Composite.WithoutNamedIdempotent | src/core/models/User.ts:37-39 | removing by name twice is removing once |
| Composite.WithoutNamedAppend | src/core/models/User.ts:37-39 | the filter works component by component: a concatenation is filtered part by part, so the remaining accounts keep their order and their repetitions |
| Composite.WithoutNamedSingle | src/core/models/User.ts:37-39 | a single component stays exactly when it has another name |
| Goals.WithoutGoal | src/core/models/User.ts:49-51 | the goals whose id is not `id`, all of them, drawn from the list without adding copies |
| Goals.WithoutGoalUnchanged | src/core/models/User.ts:49-51 | nothing is removed when no goal has that id |
| Goals.WithoutGoalAppend | src/core/models/User.ts:49-51 | the filter works goal by goal: a concatenation is filtered part by part, so the remaining goals keep their order and their repetitions |
| Goals.WithoutGoalSingle | src/core/models/User.ts:49-51 | a single goal stays exactly when it has another id |
| Finance.User.constructor | src/core/models/User.ts:14-19 | the fields are those given; no accounts, no goals, and a zero total balance |
| Finance.User.AddAccount | src/core/models/User.ts:33-35 | appends the account; the total balance grows by its balance |
| Finance.User.GetTotalBalance | src/core/models/User.ts:69-71 | the sum of the top-level components' balances; the constructor, `AddAccount` and `RemoveAccount` state how it changes |
| Finance.User.RemoveAccount | src/core/models/User.ts:37-39 | the accounts become `WithoutNamed` of the old ones (in order, by `WithoutNamedAppend`), and the hierarchy stays well formed |
| Finance.User.GetAccounts | src/core/models/User.ts:41-43 | returns the accounts |
| Finance.User.AddGoal | src/core/models/User.ts:45-47 | appends the goal |
| Finance.User.RemoveGoal | src/core/models/User.ts:49-51 | the goals become `WithoutGoal` of the old ones (in order, by `WithoutGoalAppend`) |
| Finance.User.GetGoals | src/core/models/User.ts:53-55 | returns the goals |
| Finance.User.SetFinancialState | src/core/models/User.ts:61-63 | the current mode becomes the one given |
| Finance.User.HandleTransaction | src/core/models/User.ts:65-67 | the current mode's totals take one `Step`; its context switches as `HandOver` decides; a mode bound to no context stays the user's mode |
| BudgetStrategies.Round | src/services/budget/FiftyThirtyTwentyStrategy.ts:83 | `Math.round`: the nearest integer, halves rounded up |
| BudgetStrategies.BudgetFromEntries | src/services/budget/FiftyThirtyTwentyStrategy.ts:10-34 | setting distinct categories in turn gives a map whose entries are the table, in order, and whose sum is the table's total |
| BudgetStrategies.FiftyThirtyTwentyTotal | src/services/budget/FiftyThirtyTwentyStrategy.ts:13-31 | needs come to half of income, wants to 30% and savings to 20%, so the table allocates all of income |
| BudgetStrategies.ZeroBasedTotal | src/services/budget/ZeroBasedBudgetStrategy.ts:10-27 | the zero-based table allocates all of income |
| BudgetStrategies.TablesNonNegative | src/services/budget/FiftyThirtyTwentyStrategy.ts:10-34 | out of a non-negative income neither table allocates a negative amount |
| BudgetStrategies.FiftyThirtyTwentyBudget | src/services/budget/FiftyThirtyTwentyStrategy.ts:10-34 | eleven categories, entries in table order, summing to income, none negative out of a non-negative income |
| BudgetStrategies.ZeroBasedBudget | src/services/budget/ZeroBasedBudgetStrategy.ts:10-27 | ten categories, entries in table order, summing to income, none negative out of a non-negative income |
| BudgetStrategies.BucketLists | src/services/budget/FiftyThirtyTwentyStrategy.ts:46-59 | a category is in a bucket exactly when that bucket's list holds it; the lists share no category |
| BudgetStrategies.TallyIncome | src/services/budget/FiftyThirtyTwentyStrategy.ts:62-64 | the running income is the sum of all incomes |
| BudgetStrategies.TallyBucket | src/services/budget/FiftyThirtyTwentyStrategy.ts:65-73 | each bucket's running total is the sum of the expenses in its categories |
| BudgetStrategies.TallySums | src/services/budget/FiftyThirtyTwentyStrategy.ts:61-74 | the four running totals are the sums of incomes and of each bucket's expenses |
| BudgetStrategies.BucketsPartitionExpenses | src/services/budget/FiftyThirtyTwentyStrategy.ts:65-73 | the three buckets and the unbudgeted expenses add up to all expenses |
| BudgetStrategies.FiftyThirtyTwentyAdvice | src/services/budget/FiftyThirtyTwentyStrategy.ts:77-93 | nothing without income; at most three messages, in the order needs, wants, savings |
| BudgetStrategies.FiftyThirtyTwentyAdviceFacts | src/services/budget/FiftyThirtyTwentyStrategy.ts:77-93 | with income there is a message exactly for needs above 50%, wants above 30% and savings below 20%, with the rounded percentage, and no other |
| BudgetStrategies.FiftyThirtyTwentyRecommendations | src/services/budget/FiftyThirtyTwentyStrategy.ts:36-96 | the one-pass loop over the transactions gives the advice on their tally |
| BudgetStrategies.Verdict | src/services/budget/ZeroBasedBudgetStrategy.ts:51-56 | overspent by the excess exactly above budget; under-used exactly below 80% of it; nothing in between |
| BudgetStrategies.Compare | src/services/budget/ZeroBasedBudgetStrategy.ts:50-57 | at most one message per budget entry |
| BudgetStrategies.CompareAppend | src/services/budget/ZeroBasedBudgetStrategy.ts:50-57 | the comparison works row by row: a concatenation is compared part by part, so the verdicts follow the table's order |
| BudgetStrategies.CompareSingle | src/services/budget/ZeroBasedBudgetStrategy.ts:50-57 | a single row gives exactly its own verdict |
| BudgetStrategies.CompareMembers | src/services/budget/ZeroBasedBudgetStrategy.ts:50-57 | the messages are exactly the entries' verdicts |
| BudgetStrategies.CompareFacts | src/services/budget/ZeroBasedBudgetStrategy.ts:50-57 | over distinct categories, each category is overspent or under-used exactly as its own row says |
| BudgetStrategies.CompareMessages | src/services/budget/ZeroBasedBudgetStrategy.ts:50-57 | every message is an overspent or under-used verdict about a category of the table |
| BudgetStrategies.CompareExpenseRows | src/services/budget/ZeroBasedBudgetStrategy.ts:31-57 | each row's verdict is on the sum of the expenses in its category |
| BudgetStrategies.ZeroBasedTableFacts | src/services/budget/ZeroBasedBudgetStrategy.ts:10-27 | ten distinct categories, dining out not among them, all zero out of no income |
| BudgetStrategies.ZeroBasedAdvice | src/services/budget/ZeroBasedBudgetStrategy.ts:29-60 | every message is an overspent or under-used verdict on a category of the table for total income; `ZeroBasedAdviceFacts`, `CompareFacts` and `CompareAppend` give which verdicts and their order |
| BudgetStrategies.ZeroBasedAdviceFacts | src/services/budget/ZeroBasedBudgetStrategy.ts:29-60 | the advice compares the table for total income with the expense totals: at most ten messages, none about dining out |
| BudgetStrategies.ZeroBasedWithoutIncome | src/services/budget/ZeroBasedBudgetStrategy.ts:41-57 | without income a category is overspent exactly when its expenses are positive, and under-used exactly when they are negative |
| BudgetStrategies.BudgetStrategyContext.constructor | src/patterns/strategy/BudgetStrategyContext.ts:9-11 | holds the given strategy |
| BudgetStrategies.BudgetStrategyContext.SetStrategy | src/patterns/strategy/BudgetStrategyContext.ts:13-15 | replaces the strategy |
| BudgetStrategies.BudgetStrategyContext.CalculateBudget | src/patterns/strategy/BudgetStrategyContext.ts:17-19 | the active strategy's budget, which allocates all of income |
| BudgetStrategies.BudgetStrategyContext.GetRecommendations | src/patterns/strategy/BudgetStrategyContext.ts:21-23 | the active strategy's advice |
| Categorization.KeywordHit | src/services/categorization/TransactionCategorizationService.ts:41-48 | no hit exactly when no row has a keyword in the description; otherwise the category of the first such row |
| Categorization.CategorizedIdempotent | src/services/categorization/TransactionCategorizationService.ts:63-70 | categorizing an already categorized transaction changes nothing |
| Categorization.Categorized | src/services/categorization/TransactionCategorizationService.ts:28-57 | a category already set is kept; otherwise a trained description decides before the keyword table (the whole order in `Precedence`) |
| Categorization.Precedence | src/services/categorization/TransactionCategorizationService.ts:28-57 | a set category wins; then a trained description; without a keyword hit, income defaults to salary and anything else to other |
| Categorization.GasIsTransportation | src/services/categorization/TransactionCategorizationService.ts:12-14 | "gas" is a keyword of both transportation and utilities; transportation comes first and wins |
| Categorization.SimilarTransactions | src/services/categorization/TransactionCategorizationService.ts:72-79 | exactly the transactions whose lower-cased description contains the query's or is contained in it |
| Categorization.SimilarTransactionsAppend | src/services/categorization/TransactionCategorizationService.ts:72-79 | the search works transaction by transaction: a concatenation is searched part by part, so the results keep the input order and its repetitions |
| Categorization.SimilarTransactionsSingle | src/services/categorization/TransactionCategorizationService.ts:72-79 | a single transaction is found exactly when it is similar |
| Categorization.SimilarToItself | src/services/categorization/TransactionCategorizationService.ts:72-79 | a listed transaction is always among those similar to it |
| Categorization.ScanTable | src/services/categorization/TransactionCategorizationService.ts:42-48 | the nested loop over rows and keywords finds the first row with a keyword in the description |
| Categorization.CategorizationService.constructor | src/services/categorization/TransactionCategorizationService.ts:7-26 | the keyword table in order, and no trained descriptions |
| Categorization.CategorizationService.CategorizeTransaction | src/services/categorization/TransactionCategorizationService.ts:28-57 | the category by the precedence above |
| Categorization.CategorizationService.TrainCategory | src/services/categorization/TransactionCategorizationService.ts:59-61 | the lower-cased description maps to the category |
| Categorization.CategorizationService.CategorizeInPlace | src/services/categorization/TransactionCategorizationService.ts:64-69 | a transaction in OTHER gets the computed category written into it; tags stay |
| Categorization.CategorizationService.BulkCategorize | src/services/categorization/TransactionCategorizationService.ts:63-70 | every listed transaction ends with its categorization from its original state, even when listed twice; tags stay; the same list is returned |
| RecommendationEngine.ShareOf | src/services/recommendations/RecommendationEngine.ts:45-46 | the share is `amount / total * 100`; with a zero total it is +Infinity exactly for a positive amount |
| RecommendationEngine.FlagSignificant | src/services/recommendations/RecommendationEngine.ts:43-63 | at most one high-spending recommendation per top category |
| RecommendationEngine.FlagSignificantAppend | src/services/recommendations/RecommendationEngine.ts:43-63 | the flagging works entry by entry: a concatenation is flagged part by part, so the advice keeps the entries' order |
| RecommendationEngine.FlagSignificantSingle | src/services/recommendations/RecommendationEngine.ts:43-63 | a single entry is flagged exactly when it is above 25% |
| RecommendationEngine.FlagSignificantOrdered | src/services/recommendations/RecommendationEngine.ts:43-63 | over distinct categories sorted largest first, the advice names each category once, largest saving first |
| RecommendationEngine.FlagSignificantMembers | src/services/recommendations/RecommendationEngine.ts:43-63 | the flagged advice is exactly the advice for the entries above 25% |
| RecommendationEngine.TopCategories | src/services/recommendations/RecommendationEngine.ts:42 | `slice(0, 3)`: the first three sorted entries, or all of them when fewer |
| RecommendationEngine.AnalyzeSpending | src/services/recommendations/RecommendationEngine.ts:24-88 | at most four recommendations; anything after the third is the small-purchase advice |
| RecommendationEngine.AnalyzeSpendingOrder | src/services/recommendations/RecommendationEngine.ts:24-88 | the high-spending advice comes first, one per category, largest saving first; the small-purchase advice is last, when it is due |
| RecommendationEngine.TopCategoriesOrdered | src/services/recommendations/RecommendationEngine.ts:38-42 | the top categories are distinct and in non-increasing order of their totals |
| RecommendationEngine.AnalyzeSpendingMembers | src/services/recommendations/RecommendationEngine.ts:24-88 | each high-spending advice is for a significant category among the top three; the small-purchase advice is present exactly when more than 100 is spent over at least five expenses under 20 |
| RecommendationEngine.SpendingTotalIsAllExpenses | src/services/recommendations/RecommendationEngine.ts:45 | the total the shares are taken of is the sum of all expenses |
| RecommendationEngine.HighSpendingMeansSignificant | src/services/recommendations/RecommendationEngine.ts:41-63 | every high-spending recommendation names a category above a quarter of all expenses and proposes saving a fifth of its total |
| RecommendationEngine.SortedPosition | src/services/recommendations/RecommendationEngine.ts:38-39 | every category's expense total has a place in the sorted list |
| RecommendationEngine.SortedEntry | src/services/recommendations/RecommendationEngine.ts:38-39 | every entry of the sorted list is a category's expense total |
| RecommendationEngine.SignificantInTopThree | src/services/recommendations/RecommendationEngine.ts:37-48 | with no negative expense, a significant category sits among the first three |
| RecommendationEngine.SignificantCategoryFlagged | src/services/recommendations/RecommendationEngine.ts:37-63 | with no negative expense, every category above a quarter of spending gets its recommendation |
| RecommendationEngine.SavingsRate | src/services/recommendations/RecommendationEngine.ts:94-104 | 0 without income; otherwise below 10 exactly when savings are under a tenth of income |
| RecommendationEngine.AnalyzeSavings | src/services/recommendations/RecommendationEngine.ts:90-143 | the savings-rate advice exactly when the rate is below 10, always without income, proposing more than 5% of income; the emergency-fund advice exactly when the fund is under half of income; each at most once, the savings-rate advice first, nothing else |
| RecommendationEngine.AnalyzeInvestments | src/services/recommendations/RecommendationEngine.ts:145-193 | start investing exactly when there is no investment activity; otherwise the retirement advice exactly when retirement is under a tenth of income |
| RecommendationEngine.GenerateRecommendations | src/services/recommendations/RecommendationEngine.ts:8-22 | all recommendations of the three analyses, by ascending priority; within a priority the order is spending, savings, investments |
| RecommendationEngine.NoTransactions | src/services/recommendations/RecommendationEngine.ts:8-22 | with no transactions: raise the savings rate, then start investing |
| Reporting.PercentOf | src/services/reporting/ReportingService.ts:62 | 0 without a positive whole; otherwise the part's share of the whole, in percent |
| Reporting.PercentagesAddUp | src/services/reporting/ReportingService.ts:59-63 | the percentages of parts of a positive whole add up to the parts' total over the whole, times 100 |
| Reporting.SharesAddUp | src/services/reporting/ReportingService.ts:59-63 | shares of parts that make up the whole add up to 100 |
| Reporting.SavingsRateMeaning | src/services/reporting/ReportingService.ts:25 | 0 without positive income; otherwise positive exactly when expenses stay below income, at most 100 exactly when expenses are not negative |
| Reporting.Credit | src/services/reporting/ReportingService.ts:137-141 | an income adds to the month's income, an expense to its expenses, other kinds to neither |
| Reporting.GroupIncome | src/services/reporting/ReportingService.ts:129-144 | a month's entry holds the income dated in it |
| Reporting.GroupExpenses | src/services/reporting/ReportingService.ts:129-144 | a month's entry holds the expenses dated in it |
| Reporting.GroupKeys | src/services/reporting/ReportingService.ts:129-144 | a month is a key exactly when some transaction of any kind is dated in it |
| Reporting.ColumnKeys | src/services/reporting/ReportingService.ts:129-144 | the income and expense columns have the months in the month map's order |
| Reporting.ColumnGet | src/services/reporting/ReportingService.ts:129-144 | a column's entry is the sum of that kind's amounts with that key |
| Reporting.ColumnSum | src/services/reporting/ReportingService.ts:17-23 | a column adds up to the total of its kind |
| Reporting.MonthlyDataGet | src/services/reporting/ReportingService.ts:129-144 | a month's entry is its income and its expenses |
| Reporting.MonthlyDataKeys | src/services/reporting/ReportingService.ts:129-144 | a month is a key exactly when a transaction is dated in it |
| Reporting.ColumnsAgree | src/services/reporting/ReportingService.ts:129-144 | the columns hold, month by month, what the month map holds |
| Reporting.RowsFor | src/services/reporting/ReportingService.ts:149-156 | one row per key, in key order, with the month's income, expenses and savings |
| Reporting.MonthlySeriesOrder | src/services/reporting/ReportingService.ts:147-148 | no month twice, in code-unit order of the `"Y-M"` key |
| Reporting.MonthlySeriesMonths | src/services/reporting/ReportingService.ts:147-157 | a row for exactly the months in which some transaction is dated |
| Reporting.MonthFromSeries | src/services/reporting/ReportingService.ts:147-157 | every month of the series has a transaction dated in it |
| Reporting.MonthInSeries | src/services/reporting/ReportingService.ts:147-157 | every transaction's month is in the series |
| Reporting.SummaryOf | src/services/reporting/ReportingService.ts:17-25 | the net cash flow is income minus expenses; the savings rate is 0 without income and otherwise positive exactly when expenses stay below income (`SavingsRateMeaning`) |
| Reporting.MonthlySeries | src/services/reporting/ReportingService.ts:125-160 | one row per month of the month map, each with savings equal to income minus expenses; order and sums in `MonthlySeriesOrder`, `MonthlySeriesMonths` and `MonthlySeriesRows` |
| Reporting.IncomeVsExpense | src/services/reporting/ReportingService.ts:16-45 | a summary whose net cash flow is income minus expenses, and one monthly row per month; the columns add up to the summary (`IncomeReportAddsUp`) |
| Reporting.MonthlySeriesRows | src/services/reporting/ReportingService.ts:149-156 | each row holds its month's income, its expenses and their difference |
| Reporting.IncomeReportAddsUp | src/services/reporting/ReportingService.ts:16-45 | the monthly income, expense and savings columns add up to the summary's total income, total expenses and net cash flow |
| Reporting.OctoberBeforeFebruary | src/services/reporting/ReportingService.ts:133-148 | a series holding October and February 2024 lists October first |
| Reporting.MonthKeys2024 | src/services/reporting/ReportingService.ts:133 | the keys of October and February 2024 are "2024-10" and "2024-2" |
| Reporting.MonthKeyInjective | src/services/reporting/ReportingService.ts:133 | two calendar months share a key exactly when they are the same month |
| Reporting.KeySplit | src/services/reporting/ReportingService.ts:133 | a key splits uniquely at the hyphen before the month digits |
| Reporting.CategoryRows | src/services/reporting/ReportingService.ts:59-63 | one row per entry, in order, with its share of the total |
| Reporting.ExpensesByCategory | src/services/reporting/ReportingService.ts:47-78 | the total is the sum of all expenses and there is one row per category with an expense; order and amounts in the `CategoryReport` lemmas |
| Reporting.CategoryReportTotals | src/services/reporting/ReportingService.ts:47-57 | the total is the sum of all expenses, and the rows add up to it |
| Reporting.CategoryReportOrder | src/services/reporting/ReportingService.ts:65 | rows by non-increasing amount; a rearrangement of the map's rows; equal amounts keep the map's order |
| Reporting.CategoryRowsAreEntries | src/services/reporting/ReportingService.ts:59-63 | every row is an entry of the category map, with its share of the map's sum |
| Reporting.CategoryReportAmounts | src/services/reporting/ReportingService.ts:48-63 | each row holds the sum of its category's expenses |
| Reporting.CategoryReportCoverage | src/services/reporting/ReportingService.ts:48-63 | a category has a row exactly when some expense is in it |
| Reporting.CategoryListed | src/services/reporting/ReportingService.ts:59-63 | every category of the map has a row |
| Reporting.CategoryPercentages | src/services/reporting/ReportingService.ts:57-62 | every percentage is 0 without a positive total; otherwise they add up to 100 |
| Reporting.GoalRows | src/services/reporting/ReportingService.ts:83-90 | one row per goal, in order |
| Reporting.SavingsGoalsReport | src/services/reporting/ReportingService.ts:80-100 | one row per goal of the user, with its name, status, amount and progress |
| Reporting.AccountRows | src/services/reporting/ReportingService.ts:106-110 | one row per account, in order, with its name, balance and share of the total |
| Reporting.NetWorthReport | src/services/reporting/ReportingService.ts:102-123 | the net worth is the user's total balance, with one row per top-level account |
| Reporting.NetWorthShares | src/services/reporting/ReportingService.ts:104-110 | the balances add up to the net worth; every share is 0 without a positive net worth, and the shares add up to 100 otherwise |

## Left out

- Ids, titles, description texts, creation times, chart types, `isApplied` and the apply and dismiss callbacks of reports and recommendations: they carry no logic. A recommendation keeps its kind, priority, difficulty and potential saving.
- Log lines (`console.log`) and the mode names (`getName`): they do not affect state.
- ModeRules.BudgetingReports: the Budget Utilization report is modelled as a copy of the per-category totals at the time of the call. In the code its data is the mode's live map itself, so a report already handed out keeps changing with later transactions. The savings report copies its map, as the model does.
- `BudgetingState.isSavingConsistently` (`Math.random`): it decides only a log line, because the hand-over it guards is commented out.
- The mock figures of the savings-rate, interest, performance, fees and tax reports (`Math.random`): those reports are listed without their data.
- The wording of the strategy advice messages: each message keeps its figures (percentages, amounts, category), not its text.
- The strategy name and description strings are plain functions with no property to state.
- Trivial getters (`getId`, `getEmail`, `getFinancialState`, the goal getters), `GoalTrackingService.getGoalProgress` and `getAllGoals`: each returns a field or delegates unchanged, as `Goals.Goal.GetProgress` and `Finance.User.GetGoals` state.
- The `user` parameter of the recommendation engine and of budgeting and investment advice: it is never read.
- Floating point: amounts are exact reals, so rounding error and `toFixed` formatting are not modelled. Division by zero is modelled where the code divides without a guard.
- Dates: transactions carry a year and a 0-based month; goal instants are milliseconds and "now" is a parameter. `setMonth`'s day-of-month overflow (31 January plus one month) is not modelled; only the month moves.
- The month label (`toLocaleDateString`): a series row keeps its `"Y-M"` key.
- `localeCompare` is modelled as code-unit order, which is what it gives on keys of ASCII digits and a hyphen.
- `toLowerCase` is modelled on ASCII letters only.
- Map keys built with `category.toString()` are keyed by the category itself, since the conversion is injective.
- Goal ids in `createGoal` (a timestamp and random characters) are a parameter.
- Categorization.SimilarTransactions: it works on transaction values, not object identity; the result has the same values in the same order (`SimilarTransactionsAppend`).
- Goals.Goal.AddContribution: it keeps the amount non-negative only for a non-negative contribution, because the code adds any amount unchecked.
- Composite.AccountGroup.AddAccount: it requires that an added group does not contain this group, because the code's recursive `getBalance` would not terminate on a cycle. A group's footprint is not passed up to the user or group that holds it, so the model supports filling a group before it is attached (as the application does) but not adding to a group already attached: after that the owner's well-formedness can no longer be shown, and its balance, removal and reports cannot be called.
- RecommendationEngine.SignificantCategoryFlagged: it assumes no negative expense, because with negative amounts a category above a quarter of the total can fall outside the top three.
