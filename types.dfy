/** Shared vocabulary: the enumerations of the ledger, the transaction
    snapshot every engine reads, and the recommendation record. */
module Types {

  datatype Option<T> = None | Some(value: T)

  /** The kinds of monetary event a transaction records. */
  datatype TransactionType = Income | Expense | Transfer | Investment | Deposit | Withdrawal

  /** The spending and earning categories, in the order the ledger lists them. */
  datatype CategoryType =
    | Salary | Business | Gifts | Investments
    | Housing | Transportation | Food | Utilities | Healthcare
    | Entertainment | Shopping | Education | PersonalCare
    | Travel | DiningOut | Subscriptions | EmergencyFund
    | Retirement | Vacation | EducationSavings | Other

  /** A calendar date as the ledger groups it: the year and the 0-based month index. */
  datatype Date = Date(year: int, monthIndex: int)

  /** What the engines read of a transaction. */
  datatype Tx = Tx(
    id: string,
    amount: real,
    description: string,
    date: Date,
    kind: TransactionType,
    category: CategoryType,
    accountId: string)

  datatype Difficulty = Easy | Medium | Hard

  /** What a recommendation advises; the title and description text are not modelled. */
  datatype Advice =
    // budgeting mode
    | ReduceSpending(category: CategoryType)
    | ZeroBasedBudgeting
    // savings mode
    | BuildEmergencyFund
    | HighYieldSavings
    | IncreaseRetirementSavings
    | StartInvestingSavings
    // investment mode
    | Diversify
    | TaxAdvantagedAccounts
    | LowCostIndexFunds
    | Rebalance
    | AlternativeInvestments
    // recommendation engine
    | HighSpending(category: CategoryType)
    | SmallPurchases
    | IncreaseSavingsRate
    | EmergencyFundShortfall
    | StartInvesting
    | RetirementShortfall

  /** A recommendation: lower priority numbers are more urgent. */
  datatype Recommendation = Recommendation(
    advice: Advice,
    priority: int,
    difficulty: Difficulty,
    potentialSavings: Option<real>)

  /** The amounts of `txs` added up, left to right. */
  function SumAmounts(txs: seq<Tx>): real
  {
    if txs == [] then 0.0 else SumAmounts(txs[..|txs| - 1]) + txs[|txs| - 1].amount
  }

  /** The transactions of `txs` that satisfy `keep`, in order. */
  function Where(txs: seq<Tx>, keep: Tx -> bool): (r: seq<Tx>)
    ensures |r| <= |txs|
    ensures forall t :: t in r ==> t in txs && keep(t)
  {
    if txs == [] then []
    else
      var init := Where(txs[..|txs| - 1], keep);
      if keep(txs[|txs| - 1]) then init + [txs[|txs| - 1]] else init
  }

  /** Where, one transaction at a time: the last transaction is kept exactly when it satisfies `keep`. */
  lemma WhereSnoc(txs: seq<Tx>, t: Tx, keep: Tx -> bool)
    ensures Where(txs + [t], keep) == if keep(t) then Where(txs, keep) + [t] else Where(txs, keep)
  {
    assert (txs + [t])[..|txs|] == txs;
  }

  /** Where filters a concatenation part by part and keeps a single transaction exactly
      when it satisfies `keep`: the kept transactions stay in order, repetitions included. */
  lemma {:induction false} WhereAppend(xs: seq<Tx>, ys: seq<Tx>, keep: Tx -> bool)
    ensures Where(xs + ys, keep) == Where(xs, keep) + Where(ys, keep)
  {
    if ys == [] {
      assert xs + ys == xs;
    } else {
      var init, last := ys[..|ys| - 1], ys[|ys| - 1];
      assert ys == init + [last];
      assert xs + ys == (xs + init) + [last];
      WhereAppend(xs, init, keep);
      WhereSnoc(xs + init, last, keep);
      WhereSnoc(init, last, keep);
    }
  }

  lemma WhereSingle(t: Tx, keep: Tx -> bool)
    ensures Where([t], keep) == if keep(t) then [t] else []
  {
    WhereSnoc([], t, keep);
    assert [] + [t] == [t];
  }

  lemma SumAmountsSnoc(txs: seq<Tx>, t: Tx)
    ensures SumAmounts(txs + [t]) == SumAmounts(txs) + t.amount
  {
    assert (txs + [t])[..|txs|] == txs;
  }
}
