/** The rules of the three financial modes, as values: the running totals
    each mode keeps, how one transaction updates them, when a mode hands
    over to another, and the recommendations and reports each projects
    from its totals. The mode objects that hold these totals are in
    module Finance. */
module ModeRules {
  import opened Types
  import opened OrderedMaps
  import opened Aggregates

  datatype RiskProfile = RiskLow | RiskMedium | RiskHigh

  /** Budgeting mode: expense totals per category (first-insertion order) and a transaction counter. */
  datatype BudgetingTotals = BudgetingTotals(overBudget: OrderedMap<CategoryType, real>, transactionCount: int)

  /** Savings mode: contributions per savings category, their total, and the current streak. */
  datatype SavingsTotals = SavingsTotals(savingsGoals: OrderedMap<CategoryType, real>, totalSaved: real, savingsStreak: int)

  /** Investment mode: invested amounts per category, their total, and the risk profile. */
  datatype InvestmentTotals = InvestmentTotals(investmentsByType: OrderedMap<CategoryType, real>, totalInvested: real,
                                               riskProfile: RiskProfile)

  /** The totals of whichever mode is active. */
  datatype Totals = OfBudgeting(b: BudgetingTotals) | OfSavings(s: SavingsTotals) | OfInvestment(i: InvestmentTotals)

  datatype ModeKind = BudgetingKind | SavingsKind | InvestmentKind

  /** What a mode reports; the mock figures of the savings and investment reports are not modelled. */
  datatype Report =
    | BudgetUtilization(spent: OrderedMap<CategoryType, real>)
    | SpendingTrends
    | SavingsGoalsProgress(saved: OrderedMap<CategoryType, real>)
    | SavingsRateOverTime
    | InterestEarned
    | PortfolioAllocation(invested: OrderedMap<CategoryType, real>)
    | InvestmentPerformance
    | FeesAnalysis
    | TaxEfficiency

  const EmptyBudgeting := BudgetingTotals(Empty(), 0)
  const EmptySavings := SavingsTotals(Empty(), 0.0, 0)
  const EmptyInvestment := InvestmentTotals(Empty(), 0.0, RiskMedium)

  /** The totals a freshly created mode of kind `k` starts with. */
  function EmptyTotals(k: ModeKind): (t: Totals)
    ensures t.OfBudgeting? <==> k == BudgetingKind
    ensures t.OfSavings? <==> k == SavingsKind
    ensures t.OfInvestment? <==> k == InvestmentKind
  {
    match k
    case BudgetingKind => OfBudgeting(EmptyBudgeting)
    case SavingsKind => OfSavings(EmptySavings)
    case InvestmentKind => OfInvestment(EmptyInvestment)
  }

  /** The four categories savings mode counts as saving. */
  predicate IsSavingsCategory(c: CategoryType)
  {
    c == EmergencyFund || c == Retirement || c == Vacation || c == EducationSavings
  }

  // ---------------------------------------------------------------- budgeting

  /** One transaction in budgeting mode: every transaction is counted, an
      expense is added to its category's total, nothing else changes. */
  function BudgetingStep(t: BudgetingTotals, tx: Tx): (r: BudgetingTotals)
    requires Valid(t.overBudget)
    ensures Valid(r.overBudget)
    ensures r.transactionCount == t.transactionCount + 1
    ensures tx.kind != Expense ==> r.overBudget == t.overBudget
    ensures tx.kind == Expense ==>
      Get(r.overBudget, tx.category, 0.0) == Get(t.overBudget, tx.category, 0.0) + tx.amount &&
      r.overBudget.values.Keys == t.overBudget.values.Keys + {tx.category} &&
      forall c :: c != tx.category ==> Get(r.overBudget, c, 0.0) == Get(t.overBudget, c, 0.0)
  {
    BudgetingTotals(if tx.kind == Expense then AddTo(t.overBudget, tx.category, tx.amount) else t.overBudget,
                    t.transactionCount + 1)
  }

  /** The totals of a fresh budgeting mode after `txs`. */
  function BudgetingRun(txs: seq<Tx>): (r: BudgetingTotals)
    ensures Valid(r.overBudget)
  {
    if txs == [] then EmptyBudgeting else BudgetingStep(BudgetingRun(txs[..|txs| - 1]), txs[|txs| - 1])
  }

  /** After any transactions, the counter is their number, each category's
      total is the sum of the expenses in it, and the map holds exactly the
      categories that have seen an expense. */
  lemma {:induction false} BudgetingRunTotals(txs: seq<Tx>)
    ensures BudgetingRun(txs).transactionCount == |txs|
    ensures BudgetingRun(txs).overBudget == ExpenseTotals(txs)
    ensures forall c :: Get(BudgetingRun(txs).overBudget, c, 0.0) == SumAmounts(Where(txs, ExpenseIn(c)))
    ensures forall c :: c in BudgetingRun(txs).overBudget.values <==> exists t :: t in txs && ExpenseIn(c)(t)
  {
    if txs != [] {
      BudgetingRunTotals(txs[..|txs| - 1]);
    }
    ExpenseTotalsFacts(txs);
  }

  /** The per-category recommendation of budgeting mode. */
  function ReduceFor(c: CategoryType, amount: real): Recommendation
  {
    Recommendation(ReduceSpending(c), if amount > 100.0 then 1 else 2, Medium, Some(amount))
  }

  function ReduceAll(keys: seq<CategoryType>, values: map<CategoryType, real>): (r: seq<Recommendation>)
    ensures |r| == |keys|
    ensures forall i :: 0 <= i < |keys| ==> r[i] == ReduceFor(keys[i], if keys[i] in values then values[keys[i]] else 0.0)
  {
    if keys == [] then [] else [ReduceFor(keys[0], if keys[0] in values then values[keys[0]] else 0.0)] + ReduceAll(keys[1..], values)
  }

  /** Budgeting recommendations: one per category with expenses, in first-insertion order,
      then the zero-based budgeting recommendation. */
  function BudgetingAdvice(t: BudgetingTotals): (r: seq<Recommendation>)
    ensures |r| == |t.overBudget.keys| + 1
    ensures r[|r| - 1] == Recommendation(ZeroBasedBudgeting, 3, Hard, None)
    ensures forall i :: 0 <= i < |t.overBudget.keys| ==>
      var amount := Get(t.overBudget, t.overBudget.keys[i], 0.0);
      && r[i].advice == ReduceSpending(t.overBudget.keys[i])
      && (r[i].priority == 1 <==> amount > 100.0)
      && (r[i].priority != 1 ==> r[i].priority == 2)
      && r[i].potentialSavings == Some(amount)
  {
    ReduceAll(t.overBudget.keys, t.overBudget.values) + [Recommendation(ZeroBasedBudgeting, 3, Hard, None)]
  }

  /** Every per-category recommendation is more urgent than the closing zero-based one. */
  lemma BudgetingAdviceLastIsLeastUrgent(t: BudgetingTotals)
    ensures forall i :: 0 <= i < |BudgetingAdvice(t)| - 1 ==>
      BudgetingAdvice(t)[i].priority < BudgetingAdvice(t)[|BudgetingAdvice(t)| - 1].priority
  {
  }

  function BudgetingReports(t: BudgetingTotals): (r: seq<Report>)
    ensures |r| == 2 && r[0].BudgetUtilization? && r[0].spent == t.overBudget
  {
    [BudgetUtilization(t.overBudget), SpendingTrends]
  }

  // ---------------------------------------------------------------- savings

  /** One transaction in savings mode: a savings-category expense is added to its
      category and to the total and extends the streak; any other expense ends the
      streak; other transaction types change nothing. */
  function SavingsStep(t: SavingsTotals, tx: Tx): (r: SavingsTotals)
    requires Valid(t.savingsGoals)
    ensures Valid(r.savingsGoals)
    ensures tx.kind == Expense && IsSavingsCategory(tx.category) ==>
      && Get(r.savingsGoals, tx.category, 0.0) == Get(t.savingsGoals, tx.category, 0.0) + tx.amount
      && (forall c :: c != tx.category ==> Get(r.savingsGoals, c, 0.0) == Get(t.savingsGoals, c, 0.0))
      && r.totalSaved == t.totalSaved + tx.amount
      && r.savingsStreak == t.savingsStreak + 1
    ensures tx.kind == Expense && !IsSavingsCategory(tx.category) ==>
      r.savingsGoals == t.savingsGoals && r.totalSaved == t.totalSaved && r.savingsStreak == 0
    ensures tx.kind != Expense ==> r == t
  {
    if tx.kind == Expense then
      if IsSavingsCategory(tx.category) then
        SavingsTotals(AddTo(t.savingsGoals, tx.category, tx.amount), t.totalSaved + tx.amount, t.savingsStreak + 1)
      else
        t.(savingsStreak := 0)
    else
      t
  }

  /** The totals of savings mode agree with each other: the total is the sum of the
      per-category amounts, the streak is never negative, and only savings categories
      are recorded. */
  ghost predicate SavingsInvariant(t: SavingsTotals)
  {
    && Valid(t.savingsGoals)
    && t.savingsStreak >= 0
    && t.totalSaved == Sum(t.savingsGoals)
    && forall c :: c in t.savingsGoals.values ==> IsSavingsCategory(c)
  }

  /** Savings mode's step keeps its invariant, so its streak never becomes negative. */
  lemma SavingsStepPreserves(t: SavingsTotals, tx: Tx)
    requires SavingsInvariant(t)
    ensures SavingsInvariant(SavingsStep(t, tx))
    ensures SavingsStep(t, tx).savingsStreak >= 0
  {
    if tx.kind == Expense && IsSavingsCategory(tx.category) {
      AddToSum(t.savingsGoals, tx.category, tx.amount);
    }
  }

  /** The totals of a fresh savings mode after `txs`. */
  function SavingsRun(txs: seq<Tx>): (r: SavingsTotals)
    ensures Valid(r.savingsGoals)
  {
    if txs == [] then EmptySavings else SavingsStep(SavingsRun(txs[..|txs| - 1]), txs[|txs| - 1])
  }

  /** Whatever transactions a fresh savings mode sees, its invariant holds, so the
      hand-over to budgeting mode (guarded by a negative streak) can never fire. */
  lemma {:induction false} SavingsRunInvariant(txs: seq<Tx>)
    ensures SavingsInvariant(SavingsRun(txs))
    ensures !LeavesSavingsForBudgeting(SavingsRun(txs))
  {
    if txs != [] {
      SavingsRunInvariant(txs[..|txs| - 1]);
      SavingsStepPreserves(SavingsRun(txs[..|txs| - 1]), txs[|txs| - 1]);
    }
  }

  /** Savings mode hands over to budgeting mode once its streak is negative. */
  predicate LeavesSavingsForBudgeting(after: SavingsTotals)
  {
    after.savingsStreak < 0
  }

  /** Savings mode hands over to investment mode on an investment above 1000. */
  predicate LeavesSavingsForInvestment(tx: Tx)
  {
    tx.kind == Investment && tx.amount > 1000.0
  }

  const EmergencyAdvice := Recommendation(BuildEmergencyFund, 1, Medium, None)
  const HighYieldAdvice := Recommendation(HighYieldSavings, 2, Easy, None)
  const RetirementAdvice := Recommendation(IncreaseRetirementSavings, 2, Medium, None)
  const InvestSavingsAdvice := Recommendation(StartInvestingSavings, 3, Hard, None)

  ghost predicate PrioritiesAscending(r: seq<Recommendation>)
  {
    forall i, j :: 0 <= i < j < |r| ==> r[i].priority <= r[j].priority
  }

  /** Savings recommendations, given the user's total balance: the emergency-fund
      advice first when the fund is under a quarter of the balance, the high-yield
      advice always, the retirement advice when retirement holds under 15% of the
      amount saved, the investing advice when more than 10000 is saved. */
  function SavingsAdvice(t: SavingsTotals, totalBalance: real): (r: seq<Recommendation>)
    ensures 1 <= |r| <= 4
    ensures HighYieldAdvice in r
    ensures r[0] == EmergencyAdvice <==> Get(t.savingsGoals, EmergencyFund, 0.0) < totalBalance * 0.25
    ensures EmergencyAdvice in r <==> Get(t.savingsGoals, EmergencyFund, 0.0) < totalBalance * 0.25
    ensures RetirementAdvice in r <==> Get(t.savingsGoals, Retirement, 0.0) < t.totalSaved * 0.15
    ensures InvestSavingsAdvice in r <==> t.totalSaved > 10000.0
    ensures t.totalSaved > 10000.0 ==> r[|r| - 1] == InvestSavingsAdvice
    ensures var e := if Get(t.savingsGoals, EmergencyFund, 0.0) < totalBalance * 0.25 then 1 else 0;
      var k := if Get(t.savingsGoals, Retirement, 0.0) < t.totalSaved * 0.15 then 1 else 0;
      && |r| == e + 1 + k + (if t.totalSaved > 10000.0 then 1 else 0)
      && r[e] == HighYieldAdvice
      && (k == 1 ==> r[e + 1] == RetirementAdvice)
    ensures PrioritiesAscending(r)
  {
    (if Get(t.savingsGoals, EmergencyFund, 0.0) < totalBalance * 0.25 then [EmergencyAdvice] else [])
    + [HighYieldAdvice]
    + (if Get(t.savingsGoals, Retirement, 0.0) < t.totalSaved * 0.15 then [RetirementAdvice] else [])
    + (if t.totalSaved > 10000.0 then [InvestSavingsAdvice] else [])
  }

  /** A fresh savings mode advises the high-yield account, preceded by the emergency
      fund exactly when the balance is positive; nothing saved means no retirement advice. */
  lemma FreshSavingsAdvice(totalBalance: real)
    ensures SavingsAdvice(EmptySavings, totalBalance) ==
      if totalBalance > 0.0 then [EmergencyAdvice, HighYieldAdvice] else [HighYieldAdvice]
  {
  }

  function SavingsReports(t: SavingsTotals): (r: seq<Report>)
    ensures |r| == 3 && r[0].SavingsGoalsProgress? && r[0].saved == t.savingsGoals
  {
    [SavingsGoalsProgress(t.savingsGoals), SavingsRateOverTime, InterestEarned]
  }

  // ---------------------------------------------------------------- investment

  /** One transaction in investment mode: an investment is added to its category and to the total. */
  function InvestmentStep(t: InvestmentTotals, tx: Tx): (r: InvestmentTotals)
    requires Valid(t.investmentsByType)
    ensures Valid(r.investmentsByType)
    ensures r.riskProfile == t.riskProfile
    ensures tx.kind == Investment ==>
      && Get(r.investmentsByType, tx.category, 0.0) == Get(t.investmentsByType, tx.category, 0.0) + tx.amount
      && (forall c :: c != tx.category ==> Get(r.investmentsByType, c, 0.0) == Get(t.investmentsByType, c, 0.0))
      && r.totalInvested == t.totalInvested + tx.amount
    ensures tx.kind != Investment ==> r == t
  {
    if tx.kind == Investment then
      t.(investmentsByType := AddTo(t.investmentsByType, tx.category, tx.amount),
         totalInvested := t.totalInvested + tx.amount)
    else
      t
  }

  /** The total invested is the sum of the per-category amounts, and the risk profile
      stays at its initial medium setting. */
  ghost predicate InvestmentInvariant(t: InvestmentTotals)
  {
    && Valid(t.investmentsByType)
    && t.totalInvested == Sum(t.investmentsByType)
    && t.riskProfile == RiskMedium
  }

  lemma InvestmentStepPreserves(t: InvestmentTotals, tx: Tx)
    requires InvestmentInvariant(t)
    ensures InvestmentInvariant(InvestmentStep(t, tx))
  {
    if tx.kind == Investment {
      AddToSum(t.investmentsByType, tx.category, tx.amount);
    }
  }

  /** The totals of a fresh investment mode after `txs`. */
  function InvestmentRun(txs: seq<Tx>): (r: InvestmentTotals)
    ensures Valid(r.investmentsByType)
  {
    if txs == [] then EmptyInvestment else InvestmentStep(InvestmentRun(txs[..|txs| - 1]), txs[|txs| - 1])
  }

  lemma {:induction false} InvestmentRunInvariant(txs: seq<Tx>)
    ensures InvestmentInvariant(InvestmentRun(txs))
  {
    if txs != [] {
      InvestmentRunInvariant(txs[..|txs| - 1]);
      InvestmentStepPreserves(InvestmentRun(txs[..|txs| - 1]), txs[|txs| - 1]);
    }
  }

  /** Investment mode hands over to savings mode on an emergency-fund or retirement expense above 1000. */
  predicate LeavesInvestmentForSavings(tx: Tx)
  {
    tx.kind == Expense && (tx.category == EmergencyFund || tx.category == Retirement) && tx.amount > 1000.0
  }

  const DiversifyAdvice := Recommendation(Diversify, 1, Medium, None)
  const TaxAdvice := Recommendation(TaxAdvantagedAccounts, 2, Medium, None)
  const IndexFundAdvice := Recommendation(LowCostIndexFunds, 2, Easy, None)
  const RebalanceAdvice := Recommendation(Rebalance, 3, Medium, None)
  const AlternativeAdvice := Recommendation(AlternativeInvestments, 4, Hard, None)

  /** Investment recommendations: diversification first when fewer than three categories
      are invested in, then tax-advantaged accounts, index funds and rebalancing, then
      alternative investments for a high risk profile above 50000 invested. */
  function InvestmentAdvice(t: InvestmentTotals): (r: seq<Recommendation>)
    ensures DiversifyAdvice in r <==> Size(t.investmentsByType) < 3
    ensures Size(t.investmentsByType) < 3 ==> r[0] == DiversifyAdvice
    ensures AlternativeAdvice in r <==> t.riskProfile == RiskHigh && t.totalInvested > 50000.0
    ensures var k := if Size(t.investmentsByType) < 3 then 1 else 0;
      k + 3 <= |r| && r[k..k + 3] == [TaxAdvice, IndexFundAdvice, RebalanceAdvice]
    ensures var k := if Size(t.investmentsByType) < 3 then 1 else 0;
      var alt := t.riskProfile == RiskHigh && t.totalInvested > 50000.0;
      && |r| == k + 3 + (if alt then 1 else 0)
      && (alt ==> r[k + 3] == AlternativeAdvice)
    ensures PrioritiesAscending(r)
  {
    var alternatives := t.riskProfile == RiskHigh && t.totalInvested > 50000.0;
    if Size(t.investmentsByType) < 3 then
      if alternatives then [DiversifyAdvice, TaxAdvice, IndexFundAdvice, RebalanceAdvice, AlternativeAdvice]
      else [DiversifyAdvice, TaxAdvice, IndexFundAdvice, RebalanceAdvice]
    else
      if alternatives then [TaxAdvice, IndexFundAdvice, RebalanceAdvice, AlternativeAdvice]
      else [TaxAdvice, IndexFundAdvice, RebalanceAdvice]
  }

  /** As the risk profile never leaves medium, alternative investments are never
      advised: investment mode gives four recommendations under three categories
      and three otherwise. */
  lemma InvestmentAdviceUnderInvariant(t: InvestmentTotals)
    requires InvestmentInvariant(t)
    ensures AlternativeAdvice !in InvestmentAdvice(t)
    ensures |InvestmentAdvice(t)| == if Size(t.investmentsByType) < 3 then 4 else 3
  {
  }

  function InvestmentReports(t: InvestmentTotals): (r: seq<Report>)
    ensures |r| == 4 && r[0].PortfolioAllocation? && r[0].invested == t.investmentsByType
  {
    [PortfolioAllocation(t.investmentsByType), InvestmentPerformance, FeesAnalysis, TaxEfficiency]
  }
  // ---------------------------------------------------------------- any mode

  /** The maps of the totals are well formed. */
  ghost predicate TotalsWellFormed(t: Totals)
  {
    match t
    case OfBudgeting(b) => Valid(b.overBudget)
    case OfSavings(s) => Valid(s.savingsGoals)
    case OfInvestment(i) => Valid(i.investmentsByType)
  }

  /** One transaction, in whichever mode is active. */
  function Step(t: Totals, tx: Tx): (r: Totals)
    requires TotalsWellFormed(t)
    ensures TotalsWellFormed(r)
    ensures r.OfBudgeting? == t.OfBudgeting? && r.OfSavings? == t.OfSavings? && r.OfInvestment? == t.OfInvestment?
  {
    match t
    case OfBudgeting(b) => OfBudgeting(BudgetingStep(b, tx))
    case OfSavings(s) => OfSavings(SavingsStep(s, tx))
    case OfInvestment(i) => OfInvestment(InvestmentStep(i, tx))
  }

  /** The mode a transaction hands over to, when the active mode has a context.
      In savings mode both checks run in turn, so the investment hand-over,
      checked last, prevails. */
  function HandOver(t: Totals, tx: Tx): (r: Option<ModeKind>)
    requires TotalsWellFormed(t)
    ensures t.OfBudgeting? ==> r.None?
    ensures t.OfSavings? ==> (r == Some(InvestmentKind) <==> LeavesSavingsForInvestment(tx))
    ensures r != Some(KindOfTotals(t))
  {
    match t
    case OfBudgeting(_) => None
    case OfSavings(s) =>
      if LeavesSavingsForInvestment(tx) then Some(InvestmentKind)
      else if LeavesSavingsForBudgeting(SavingsStep(s, tx)) then Some(BudgetingKind)
      else None
    case OfInvestment(_) =>
      if LeavesInvestmentForSavings(tx) then Some(SavingsKind) else None
  }

  /** Budgeting mode never hands over; a savings mode keeping its invariant hands over
      only to investment mode, exactly on an investment above 1000; investment mode
      hands over to savings mode exactly on a large emergency-fund or retirement expense.
      No mode hands over to itself. */
  lemma HandOverCases(t: Totals, tx: Tx)
    requires TotalsWellFormed(t)
    requires t.OfSavings? ==> SavingsInvariant(t.s)
    ensures t.OfBudgeting? ==> HandOver(t, tx) == None
    ensures t.OfSavings? ==> (HandOver(t, tx) == Some(InvestmentKind) <==> LeavesSavingsForInvestment(tx))
    ensures t.OfSavings? ==> HandOver(t, tx) != Some(BudgetingKind)
    ensures t.OfInvestment? ==> (HandOver(t, tx) == Some(SavingsKind) <==> LeavesInvestmentForSavings(tx))
    ensures HandOver(t, tx) != Some(KindOfTotals(t))
  {
    if t.OfSavings? {
      SavingsStepPreserves(t.s, tx);
    }
  }

  function KindOfTotals(t: Totals): ModeKind
  {
    match t
    case OfBudgeting(_) => BudgetingKind
    case OfSavings(_) => SavingsKind
    case OfInvestment(_) => InvestmentKind
  }

  /** The recommendations of the active mode; only savings mode uses the user's total balance. */
  function Advise(t: Totals, totalBalance: real): seq<Recommendation>
  {
    match t
    case OfBudgeting(b) => BudgetingAdvice(b)
    case OfSavings(s) => SavingsAdvice(s, totalBalance)
    case OfInvestment(i) => InvestmentAdvice(i)
  }

  /** The reports of the active mode. */
  function Reports(t: Totals): seq<Report>
  {
    match t
    case OfBudgeting(b) => BudgetingReports(b)
    case OfSavings(s) => SavingsReports(s)
    case OfInvestment(i) => InvestmentReports(i)
  }
}
