/** The recommendation engine: three independent analyses of a list of
    transactions (spending, savings, investments), merged and ordered by
    priority. The user the ledger passes along is not consulted by any of
    the analyses and is left out of the signatures. */
module RecommendationEngine {
  import opened Types
  import opened JsNumber
  import opened OrderedMaps
  import opened Sorting
  import opened Aggregates

  type Entry = (CategoryType, real)

  /** Sort key for descending amounts (`(a, b) => b[1] - a[1]`). */
  function Descending(): Entry -> real
  {
    (e: Entry) => -e.1
  }

  /** Sort key for ascending priority (`(a, b) => a.priorityLevel - b.priorityLevel`). */
  function ByPriority(): Recommendation -> real
  {
    (r: Recommendation) => r.priority as real
  }

  // ---------------------------------------------------------------- spending

  /** `amount / totalExpenses * 100`, computed without a guard against a zero total. */
  function ShareOf(amount: real, total: real): (p: Num)
    ensures total != 0.0 ==> p == Finite(amount / total * 100.0)
    ensures total == 0.0 ==> (p == PosInf <==> amount > 0.0)
  {
    Scale(Div(amount, total), 100.0)
  }

  /** A category is significant when its share of all expenses exceeds 25%. */
  predicate Significant(amount: real, total: real)
  {
    GtReal(ShareOf(amount, total), 25.0)
  }

  /** The advice for a significant category: cut it by a fifth. */
  function HighSpendingFor(e: Entry): Recommendation
  {
    Recommendation(HighSpending(e.0), 1, Medium, Some(e.1 * 0.2))
  }

  /** The advice for many small purchases: half of them could be saved. */
  function SmallPurchasesFor(total: real): Recommendation
  {
    Recommendation(SmallPurchases, 2, Easy, Some(total * 0.5))
  }

  /** The high-spending advice for those of `top` that are significant, in order. */
  function FlagSignificant(top: seq<Entry>, total: real): (r: seq<Recommendation>)
    ensures |r| <= |top|
    ensures forall k :: 0 <= k < |r| ==> r[k].advice.HighSpending?
  {
    if top == [] then []
    else (if Significant(top[0].1, total) then [HighSpendingFor(top[0])] else []) + FlagSignificant(top[1..], total)
  }

  /** The flagged advice is exactly the advice for the significant entries. */
  lemma {:induction false} FlagSignificantMembers(top: seq<Entry>, total: real)
    ensures forall rec :: rec in FlagSignificant(top, total) ==>
      exists i :: 0 <= i < |top| && Significant(top[i].1, total) && rec == HighSpendingFor(top[i])
    ensures forall i :: 0 <= i < |top| && Significant(top[i].1, total) ==> HighSpendingFor(top[i]) in FlagSignificant(top, total)
  {
    if top != [] {
      var rest := FlagSignificant(top[1..], total);
      var r := FlagSignificant(top, total);
      FlagSignificantMembers(top[1..], total);
      forall rec | rec in r ensures exists i :: 0 <= i < |top| && Significant(top[i].1, total) && rec == HighSpendingFor(top[i]) {
        if rec in rest {
          var i :| 0 <= i < |top[1..]| && Significant(top[1..][i].1, total) && rec == HighSpendingFor(top[1..][i]);
          assert top[i + 1] == top[1..][i];
        }
      }
      forall i | 0 <= i < |top| && Significant(top[i].1, total) ensures HighSpendingFor(top[i]) in r {
        if i > 0 {
          assert top[1..][i - 1] == top[i];
        }
      }
    }
  }

  /** The flagging works entry by entry: a single entry is flagged exactly when it is
      significant, and a concatenation is flagged part by part, so the advice keeps
      the entries' order. */
  lemma {:induction false} FlagSignificantAppend(xs: seq<Entry>, ys: seq<Entry>, total: real)
    ensures FlagSignificant(xs + ys, total) == FlagSignificant(xs, total) + FlagSignificant(ys, total)
  {
    if xs == [] {
      assert xs + ys == ys;
    } else {
      assert (xs + ys)[0] == xs[0] && (xs + ys)[1..] == xs[1..] + ys;
      FlagSignificantAppend(xs[1..], ys, total);
    }
  }

  lemma FlagSignificantSingle(e: Entry, total: real)
    ensures FlagSignificant([e], total) == if Significant(e.1, total) then [HighSpendingFor(e)] else []
  {
    assert [e][1..] == [];
  }

  /** High-spending advice, one per category, largest saving first. */
  ghost predicate OncePerCategoryLargestFirst(r: seq<Recommendation>)
  {
    forall i, j :: 0 <= i < j < |r| ==>
      && r[i].advice.HighSpending? && r[j].advice.HighSpending?
      && r[i].advice.category != r[j].advice.category
      && r[i].potentialSavings.Some? && r[j].potentialSavings.Some?
      && r[i].potentialSavings.value >= r[j].potentialSavings.value
  }

  /** Over entries of distinct categories in non-increasing order of amount, the
      advice names each category once, largest saving first. */
  lemma {:induction false} FlagSignificantOrdered(top: seq<Entry>, total: real)
    requires forall i, j :: 0 <= i < j < |top| ==> top[i].1 >= top[j].1 && top[i].0 != top[j].0
    ensures OncePerCategoryLargestFirst(FlagSignificant(top, total))
  {
    if top != [] {
      var rest := FlagSignificant(top[1..], total);
      FlagSignificantOrdered(top[1..], total);
      if Significant(top[0].1, total) {
        var h := HighSpendingFor(top[0]);
        FlagSignificantMembers(top[1..], total);
        forall rec | rec in rest
          ensures h.advice.category != rec.advice.category
          ensures rec.potentialSavings.Some? && h.potentialSavings.value >= rec.potentialSavings.value
        {
          var m :| 0 <= m < |top[1..]| && Significant(top[1..][m].1, total) && rec == HighSpendingFor(top[1..][m]);
          assert top[1..][m] == top[m + 1];
        }
        PrependLargest(h, rest);
        assert FlagSignificant(top, total) == [h] + rest;
      } else {
        assert FlagSignificant(top, total) == rest;
      }
    }
  }

  /** Advice for a new category with the largest saving can go in front. */
  lemma PrependLargest(h: Recommendation, rest: seq<Recommendation>)
    requires OncePerCategoryLargestFirst(rest)
    requires h.advice.HighSpending? && h.potentialSavings.Some?
    requires forall rec :: rec in rest ==>
      && rec.advice.HighSpending? && h.advice.category != rec.advice.category
      && rec.potentialSavings.Some? && h.potentialSavings.value >= rec.potentialSavings.value
    ensures OncePerCategoryLargestFirst([h] + rest)
  {
    var r := [h] + rest;
    forall i, j | 0 <= i < j < |r|
      ensures r[i].advice.HighSpending? && r[j].advice.HighSpending?
      ensures r[i].advice.category != r[j].advice.category
      ensures r[i].potentialSavings.Some? && r[j].potentialSavings.Some?
      ensures r[i].potentialSavings.value >= r[j].potentialSavings.value
    {
      assert r[j] == rest[j - 1] && rest[j - 1] in rest;
      if i > 0 {
        assert r[i] == rest[i - 1];
      }
    }
  }

  /** The expense totals per category, largest first (ties keep first-expense order). */
  function SortedCategories(txs: seq<Tx>): seq<Entry>
  {
    SortBy(Entries(ExpenseTotals(txs)), Descending())
  }

  /** The total the shares are taken of, added up over the sorted categories. */
  function SpendingTotal(txs: seq<Tx>): real
  {
    Total(SortedCategories(txs), Value())
  }

  /** `categoriesArray.slice(0, 3)`. */
  function TopCategories(txs: seq<Tx>): (r: seq<Entry>)
    ensures |r| <= 3 && |r| <= |SortedCategories(txs)| && r == SortedCategories(txs)[..|r|]
    ensures |r| == 3 || r == SortedCategories(txs)
  {
    var s := SortedCategories(txs);
    if |s| <= 3 then s else s[..3]
  }

  /** The top categories are distinct and in non-increasing order of their totals. */
  lemma TopCategoriesOrdered(txs: seq<Tx>)
    ensures var top := TopCategories(txs);
      forall i, j :: 0 <= i < j < |top| ==> top[i].1 >= top[j].1 && top[i].0 != top[j].0
  {
    var es := Entries(ExpenseTotals(txs));
    var sorted := SortedCategories(txs);
    var top := TopCategories(txs);
    SortByFacts(es, Descending());
    DistinctPermutation(es, sorted);
    forall i, j | 0 <= i < j < |top| ensures top[i].1 >= top[j].1 && top[i].0 != top[j].0 {
      assert top[i] == sorted[i] && top[j] == sorted[j];
      assert Descending()(sorted[i]) <= Descending()(sorted[j]);
      SortedEntry(txs, i);
      SortedEntry(txs, j);
    }
  }

  /** An expense under 20. */
  function IsSmallExpense(): Tx -> bool
  {
    (t: Tx) => t.kind == Expense && t.amount < 20.0
  }

  /** The small-purchase advice is due for more than 100 spent over at least five small expenses. */
  predicate SmallPurchasesDue(txs: seq<Tx>)
  {
    var small := Where(txs, IsSmallExpense());
    SumAmounts(small) > 100.0 && |small| >= 5
  }

  /** The advice for the significant ones among the top three categories,
      then the small-purchase advice when it is due. */
  function AnalyzeSpending(txs: seq<Tx>): (r: seq<Recommendation>)
    ensures |r| <= 4
    ensures forall i :: 3 <= i < |r| ==> r[i].advice == SmallPurchases
  {
    var high := FlagSignificant(TopCategories(txs), SpendingTotal(txs));
    high + (if SmallPurchasesDue(txs) then [SmallPurchasesFor(SumAmounts(Where(txs, IsSmallExpense())))] else [])
  }

  /** The high-spending advice comes first, one per category and largest saving
      first; only the last recommendation can be the small-purchase advice. */
  lemma AnalyzeSpendingOrder(txs: seq<Tx>)
    ensures var r := AnalyzeSpending(txs);
      var n := if SmallPurchasesDue(txs) then |r| - 1 else |r|;
      && 0 <= n <= |r|
      && OncePerCategoryLargestFirst(r[..n])
      && (SmallPurchasesDue(txs) ==> r[n].advice == SmallPurchases)
  {
    var high := FlagSignificant(TopCategories(txs), SpendingTotal(txs));
    TopCategoriesOrdered(txs);
    FlagSignificantOrdered(TopCategories(txs), SpendingTotal(txs));
    var r := AnalyzeSpending(txs);
    assert r[..|high|] == high;
  }

  /** Each high-spending advice is for a significant category among the top
      three; any other advice is the small-purchase advice, given exactly
      when it is due. */
  lemma AnalyzeSpendingMembers(txs: seq<Tx>)
    ensures var r := AnalyzeSpending(txs);
      forall rec :: rec in r && rec.advice.HighSpending? ==>
        exists i :: 0 <= i < |SortedCategories(txs)| && i < 3 &&
          Significant(SortedCategories(txs)[i].1, SpendingTotal(txs)) && rec == HighSpendingFor(SortedCategories(txs)[i])
    ensures var r := AnalyzeSpending(txs);
      forall rec :: rec in r && !rec.advice.HighSpending? ==>
        rec == SmallPurchasesFor(SumAmounts(Where(txs, IsSmallExpense())))
    ensures (exists rec :: rec in AnalyzeSpending(txs) && rec.advice == SmallPurchases) <==> SmallPurchasesDue(txs)
  {
    var top := TopCategories(txs);
    var high := FlagSignificant(top, SpendingTotal(txs));
    var r := AnalyzeSpending(txs);
    FlagSignificantMembers(top, SpendingTotal(txs));
    assert forall rec :: rec in r ==> rec in high || rec == SmallPurchasesFor(SumAmounts(Where(txs, IsSmallExpense())));
    forall rec | rec in r && rec.advice.HighSpending?
      ensures exists i :: (0 <= i < |SortedCategories(txs)| && i < 3 &&
                           Significant(SortedCategories(txs)[i].1, SpendingTotal(txs)) &&
                           rec == HighSpendingFor(SortedCategories(txs)[i]))
    {
      var i :| 0 <= i < |top| && Significant(top[i].1, SpendingTotal(txs)) && rec == HighSpendingFor(top[i]);
      assert top[i] == SortedCategories(txs)[i];
    }
  }

  /** The total the shares are taken of is the sum of all expenses. */
  lemma SpendingTotalIsAllExpenses(txs: seq<Tx>)
    ensures SpendingTotal(txs) == SumAmounts(Where(txs, IsExpense()))
  {
    var m := ExpenseTotals(txs);
    SortByTotal(Entries(m), Descending(), Value());
    EntriesTotal(m);
    ExpenseTotalsSum(txs);
  }

  /** Every high-spending recommendation names a category whose expenses
      make up more than a quarter of all expenses, and proposes saving a
      fifth of that category's total. */
  lemma HighSpendingMeansSignificant(txs: seq<Tx>, rec: Recommendation)
    requires rec in AnalyzeSpending(txs) && rec.advice.HighSpending?
    ensures var m := ExpenseTotals(txs);
      var c := rec.advice.category;
      && c in m.values
      && Significant(m.values[c], SumAmounts(Where(txs, IsExpense())))
      && rec == HighSpendingFor((c, m.values[c]))
  {
    SpendingTotalIsAllExpenses(txs);
    AnalyzeSpendingMembers(txs);
    var i :| 0 <= i < |SortedCategories(txs)| && i < 3 &&
        Significant(SortedCategories(txs)[i].1, SpendingTotal(txs)) && rec == HighSpendingFor(SortedCategories(txs)[i]);
    SortedEntry(txs, i);
  }

  /** Every category's expense total has a place in the sorted list. */
  lemma SortedPosition(txs: seq<Tx>, c: CategoryType) returns (i: nat)
    requires c in ExpenseTotals(txs).values
    ensures i < |SortedCategories(txs)| && SortedCategories(txs)[i] == (c, ExpenseTotals(txs).values[c])
  {
    var m := ExpenseTotals(txs);
    SortByFacts(Entries(m), Descending());
    EntriesComplete(m, c);
    assert (c, m.values[c]) in multiset(SortedCategories(txs));
    i :| 0 <= i < |SortedCategories(txs)| && SortedCategories(txs)[i] == (c, m.values[c]);
  }

  /** Every entry of the sorted list is a category's expense total. */
  lemma SortedEntry(txs: seq<Tx>, i: nat)
    requires i < |SortedCategories(txs)|
    ensures var m, e := ExpenseTotals(txs), SortedCategories(txs)[i];
      e.0 in m.values && e.1 == m.values[e.0]
  {
    var es := Entries(ExpenseTotals(txs));
    SortByFacts(es, Descending());
    assert SortedCategories(txs)[i] in multiset(es);
    var k :| 0 <= k < |es| && es[k] == SortedCategories(txs)[i];
  }

  /** With no negative expense, no sorted category total is negative. */
  lemma SortedNonNegative(txs: seq<Tx>)
    requires forall t :: t in txs && t.kind == Expense ==> t.amount >= 0.0
    ensures forall j :: 0 <= j < |SortedCategories(txs)| ==> Value()(SortedCategories(txs)[j]) >= 0.0
  {
    var m := ExpenseTotals(txs);
    var es := Entries(m);
    var sorted := SortedCategories(txs);
    SortByFacts(es, Descending());
    ExpenseTotalsNonNegative(txs);
    forall j | 0 <= j < |sorted| ensures Value()(sorted[j]) >= 0.0 {
      assert sorted[j] in multiset(es);
      var k :| 0 <= k < |es| && es[k] == sorted[j];
    }
  }

  /** A significant category sits among the first three of the sorted list:
      otherwise the three before it, each at least as large, and itself
      would add up to more than the whole. */
  lemma SignificantInTopThree(txs: seq<Tx>, i: nat)
    requires forall t :: t in txs && t.kind == Expense ==> t.amount >= 0.0
    requires i < |SortedCategories(txs)|
    requires Significant(SortedCategories(txs)[i].1, SpendingTotal(txs))
    ensures i < 3
  {
    var sorted := SortedCategories(txs);
    var v := sorted[i].1;
    SortedNonNegative(txs);
    if i >= 3 {
      SortByFacts(Entries(ExpenseTotals(txs)), Descending());
      TotalAtLeast(sorted, Value(), 3, i);
      TotalOfThree(sorted, Value());
      assert Descending()(sorted[0]) <= Descending()(sorted[i]);
      assert Descending()(sorted[1]) <= Descending()(sorted[i]);
      assert Descending()(sorted[2]) <= Descending()(sorted[i]);
      QuarterBound(v, SpendingTotal(txs));
    }
  }

  /** When no expense is negative, at most three categories can each take
      more than a quarter of the total, so the top three contain them all:
      every significant category gets its recommendation. */
  lemma SignificantCategoryFlagged(txs: seq<Tx>, c: CategoryType)
    requires forall t :: t in txs && t.kind == Expense ==> t.amount >= 0.0
    requires c in ExpenseTotals(txs).values
    requires Significant(ExpenseTotals(txs).values[c], SumAmounts(Where(txs, IsExpense())))
    ensures HighSpendingFor((c, ExpenseTotals(txs).values[c])) in AnalyzeSpending(txs)
  {
    var v := ExpenseTotals(txs).values[c];
    SpendingTotalIsAllExpenses(txs);
    var i := SortedPosition(txs, c);
    SignificantInTopThree(txs, i);
    assert TopCategories(txs)[i] == (c, v);
    FlagSignificantMembers(TopCategories(txs), SpendingTotal(txs));
  }

  lemma TotalOfThree<T>(s: seq<T>, val: T -> real)
    requires |s| >= 3
    ensures Total(s[..3], val) == val(s[0]) + val(s[1]) + val(s[2])
  {
    var s3, s2, s1 := s[..3], s[..2], s[..1];
    assert s3[..2] == s2 && s2[..1] == s1 && s1[..0] == [];
    assert Total(s1, val) == val(s[0]);
    assert Total(s2, val) == Total(s1, val) + val(s[1]);
    assert Total(s3, val) == Total(s2, val) + val(s[2]);
  }

  /** A share above 25% of a total that is at least four times the amount is impossible. */
  lemma QuarterBound(v: real, total: real)
    requires 0.0 <= v && 4.0 * v <= total
    ensures !Significant(v, total)
  {
    if total == 0.0 {
      assert v == 0.0;
    } else {
      assert v / total * 100.0 <= 25.0 by {
        assert v / total <= 0.25 by {
          assert v <= 0.25 * total;
        }
      }
    }
  }

  // ---------------------------------------------------------------- savings

  /** The sum of all incomes. */
  function TotalIncome(txs: seq<Tx>): real
  {
    SumAmounts(Where(txs, IsIncome()))
  }

  /** An expense booked to the emergency fund, retirement or education savings. */
  function IsSavingExpense(): Tx -> bool
  {
    (t: Tx) => t.kind == Expense && t.category in {EmergencyFund, Retirement, EducationSavings}
  }

  /** The sum of expenses booked to savings categories. */
  function TotalSavings(txs: seq<Tx>): real
  {
    SumAmounts(Where(txs, IsSavingExpense()))
  }

  /** Savings as a percentage of income, and 0 without income. */
  function SavingsRate(txs: seq<Tx>): (rate: real)
    ensures TotalIncome(txs) <= 0.0 ==> rate == 0.0
    ensures TotalIncome(txs) > 0.0 ==> (rate < 10.0 <==> TotalSavings(txs) < 0.1 * TotalIncome(txs))
  {
    var income := TotalIncome(txs);
    var savings := TotalSavings(txs);
    if income > 0.0 then
      RateBelowTen(savings, income);
      savings / income * 100.0
    else 0.0
  }

  lemma RateBelowTen(savings: real, income: real)
    requires income > 0.0
    ensures savings / income * 100.0 < 10.0 <==> savings < 0.1 * income
  {
    var q := savings / income;
    assert q * income == savings;
    if q * 100.0 < 10.0 {
      assert q < 0.1;
      assert q * income < 0.1 * income;
    }
    if savings < 0.1 * income {
      assert q * income < 0.1 * income;
    }
  }

  /** Everything ever booked to the emergency fund, whatever its kind. */
  function EmergencyFundTotal(txs: seq<Tx>): real
  {
    SumAmounts(Where(txs, InCategory(EmergencyFund)))
  }

  /** The savings-rate advice: what saving 15% of income would add. */
  function IncreaseRateFor(income: real, savings: real): Recommendation
  {
    Recommendation(IncreaseSavingsRate, 1, Medium, Some(income * 0.15 - savings))
  }

  const EmergencyFundAdvice := Recommendation(EmergencyFundShortfall, 2, Medium, None)

  function AnalyzeSavings(txs: seq<Tx>): (r: seq<Recommendation>)
    ensures |r| <= 2
    ensures |r| == (if SavingsRate(txs) < 10.0 then 1 else 0) + (if EmergencyFundTotal(txs) < TotalIncome(txs) * 0.5 then 1 else 0)
    ensures SavingsRate(txs) < 10.0 ==> r[0] == IncreaseRateFor(TotalIncome(txs), TotalSavings(txs))
    ensures EmergencyFundTotal(txs) < TotalIncome(txs) * 0.5 ==> r[|r| - 1] == EmergencyFundAdvice
    ensures forall rec :: rec in r ==> rec == IncreaseRateFor(TotalIncome(txs), TotalSavings(txs)) || rec == EmergencyFundAdvice
    ensures IncreaseRateFor(TotalIncome(txs), TotalSavings(txs)) in r <==> SavingsRate(txs) < 10.0
    ensures EmergencyFundAdvice in r <==> EmergencyFundTotal(txs) < TotalIncome(txs) * 0.5
    ensures TotalIncome(txs) <= 0.0 ==> IncreaseRateFor(TotalIncome(txs), TotalSavings(txs)) in r
    ensures TotalIncome(txs) > 0.0 && IncreaseRateFor(TotalIncome(txs), TotalSavings(txs)) in r ==>
      IncreaseRateFor(TotalIncome(txs), TotalSavings(txs)).potentialSavings.value > 0.05 * TotalIncome(txs)
  {
    var income := TotalIncome(txs);
    var savings := TotalSavings(txs);
    (if SavingsRate(txs) < 10.0 then [IncreaseRateFor(income, savings)] else [])
    + (if EmergencyFundTotal(txs) < income * 0.5 then [EmergencyFundAdvice] else [])
  }

  // ---------------------------------------------------------------- investments

  /** An investment, by kind or by category. */
  function IsInvestmentActivity(): Tx -> bool
  {
    (t: Tx) => t.kind == Investment || t.category == Investments
  }

  /** Everything ever booked to retirement, whatever its kind. */
  function RetirementTotal(txs: seq<Tx>): real
  {
    SumAmounts(Where(txs, InCategory(Retirement)))
  }

  const StartInvestingAdvice := Recommendation(StartInvesting, 2, Medium, None)
  const RetirementAdvice := Recommendation(RetirementShortfall, 1, Medium, None)

  function AnalyzeInvestments(txs: seq<Tx>): (r: seq<Recommendation>)
    ensures |r| <= 1
    ensures StartInvestingAdvice in r <==> forall t :: t in txs ==> !IsInvestmentActivity()(t)
    ensures RetirementAdvice in r <==>
      (exists t :: t in txs && IsInvestmentActivity()(t)) && RetirementTotal(txs) < TotalIncome(txs) * 0.1
    ensures forall rec :: rec in r ==> rec == StartInvestingAdvice || rec == RetirementAdvice
  {
    var activity := Where(txs, IsInvestmentActivity());
    WhereEmpty(txs, IsInvestmentActivity());
    if |activity| == 0 then [StartInvestingAdvice]
    else if RetirementTotal(txs) < TotalIncome(txs) * 0.1 then [RetirementAdvice]
    else []
  }

  /** Nothing is kept exactly when nothing qualifies. */
  lemma {:induction false} WhereEmpty(txs: seq<Tx>, keep: Tx -> bool)
    ensures Where(txs, keep) == [] <==> forall t :: t in txs ==> !keep(t)
  {
    if txs != [] {
      var init, last := txs[..|txs| - 1], txs[|txs| - 1];
      assert txs == init + [last];
      WhereEmpty(init, keep);
    }
  }

  // ---------------------------------------------------------------- all together

  /** The three analyses in order, before sorting. */
  function Gathered(txs: seq<Tx>): seq<Recommendation>
  {
    AnalyzeSpending(txs) + AnalyzeSavings(txs) + AnalyzeInvestments(txs)
  }

  /** All recommendations of the three analyses, most urgent first; within a
      priority they keep the order spending, savings, investments. */
  function GenerateRecommendations(txs: seq<Tx>): (r: seq<Recommendation>)
    ensures multiset(r) == multiset(AnalyzeSpending(txs)) + multiset(AnalyzeSavings(txs)) + multiset(AnalyzeInvestments(txs))
    ensures forall i, j :: 0 <= i < j < |r| ==> r[i].priority <= r[j].priority
    ensures forall p :: WithKey(r, ByPriority(), p) == WithKey(Gathered(txs), ByPriority(), p)
  {
    SortByFacts(Gathered(txs), ByPriority());
    var r := SortBy(Gathered(txs), ByPriority());
    assert forall i, j :: 0 <= i < j < |r| ==> ByPriority()(r[i]) <= ByPriority()(r[j]);
    r
  }

  /** With no transactions at all, the engine advises raising the savings
      rate (with nothing to save) and starting to invest, in that order. */
  lemma NoTransactions(txs: seq<Tx>)
    requires |txs| == 0
    ensures GenerateRecommendations(txs) == [IncreaseRateFor(0.0, 0.0), StartInvestingAdvice]
  {
    NoTransactionsSpending(txs);
    NoTransactionsSavings(txs);
    NoTransactionsInvestments(txs);
    assert Gathered(txs) == [IncreaseRateFor(0.0, 0.0), StartInvestingAdvice];
    SortTwo(IncreaseRateFor(0.0, 0.0), StartInvestingAdvice);
  }

  lemma SortTwo(a: Recommendation, b: Recommendation)
    requires a.priority <= b.priority
    ensures SortBy([a, b], ByPriority()) == [a, b]
  {
    var ab := [a, b];
    assert ab[1..] == [b] && [b][1..] == [];
    assert SortBy([b], ByPriority()) == [b];
  }

  lemma NoTransactionsSpending(txs: seq<Tx>)
    requires |txs| == 0
    ensures AnalyzeSpending(txs) == []
  {
    assert ExpenseTotals(txs) == Empty();
    assert SortedCategories(txs) == [];
    assert Where(txs, IsSmallExpense()) == [];
  }

  lemma NoTransactionsSavings(txs: seq<Tx>)
    requires |txs| == 0
    ensures AnalyzeSavings(txs) == [IncreaseRateFor(0.0, 0.0)]
  {
    assert TotalIncome(txs) == 0.0 && TotalSavings(txs) == 0.0 && EmergencyFundTotal(txs) == 0.0;
  }

  lemma NoTransactionsInvestments(txs: seq<Tx>)
    requires |txs| == 0
    ensures AnalyzeInvestments(txs) == [StartInvestingAdvice]
  {
    assert Where(txs, IsInvestmentActivity()) == [];
  }
}
