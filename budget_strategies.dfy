/** The two budget strategies (the 50/30/20 rule and zero-based budgeting),
    each an allocation table over income plus advice comparing actual
    spending with it, and the holder that delegates to whichever strategy
    is active. The advice messages keep their figures; their wording is
    not modelled. */
module BudgetStrategies {
  import opened Types
  import opened OrderedMaps
  import opened Sorting
  import opened Aggregates

  type Entry = (CategoryType, real)

  datatype Strategy = FiftyThirtyTwenty | ZeroBased

  datatype BudgetMessage =
    | NeedsAbove(percent: int)
    | WantsAbove(percent: int)
    | SavingsBelow(percent: int)
    | Overspent(category: CategoryType, excess: real)
    | Underused(category: CategoryType, spent: real, budget: real)

  function Name(s: Strategy): string
  {
    match s
    case FiftyThirtyTwenty => "50/30/20 Rule"
    case ZeroBased => "Zero-Based Budgeting"
  }

  function Description(s: Strategy): string
  {
    match s
    case FiftyThirtyTwenty => "Allocate 50% of income to needs, 30% to wants, and 20% to savings and debt repayment."
    case ZeroBased => "A method of budgeting where all expenses must be justified for each new period. Income - Expenses = 0"
  }

  /** `Math.round(x)`: the nearest integer, halves rounded up. */
  function Round(x: real): (n: int)
    ensures n as real - 0.5 <= x < n as real + 0.5
  {
    (x + 0.5).Floor
  }

  // ---------------------------------------------------------------- allocation tables

  /** The categories of `entries`, in order. */
  ghost predicate DistinctCategories(entries: seq<Entry>)
  {
    forall i, j :: 0 <= i < j < |entries| ==> entries[i].0 != entries[j].0
  }

  /** A map filled by `budget.set(c, a)` for each entry in turn. */
  function BudgetFrom(entries: seq<Entry>): (m: OrderedMap<CategoryType, real>)
    ensures Valid(m)
  {
    if entries == [] then Empty()
    else Put(BudgetFrom(entries[..|entries| - 1]), entries[|entries| - 1].0, entries[|entries| - 1].1)
  }

  /** Setting distinct categories in turn yields a map whose entries are
      exactly the table, in table order, and whose sum is the table's total. */
  lemma BudgetFromEntries(entries: seq<Entry>)
    requires DistinctCategories(entries)
    ensures Entries(BudgetFrom(entries)) == entries
    ensures Sum(BudgetFrom(entries)) == Total(entries, Value())
  {
    BudgetFromInOrder(entries);
    EntriesTotal(BudgetFrom(entries));
  }

  lemma {:induction false} BudgetFromInOrder(entries: seq<Entry>)
    requires DistinctCategories(entries)
    ensures Entries(BudgetFrom(entries)) == entries
  {
    if entries != [] {
      var init, last := entries[..|entries| - 1], entries[|entries| - 1];
      assert entries == init + [last];
      var p := BudgetFrom(init);
      BudgetFromInOrder(init);
      forall i | 0 <= i < |p.keys| ensures p.keys[i] != last.0 {
        assert Entries(p)[i].0 == entries[i].0;
      }
      assert last.0 !in p.keys;
      EntriesPutNew(p, last.0, last.1);
    }
  }

  /** The 50/30/20 table: needs take half of income, wants 30%, savings 20%,
      each split further between its categories. */
  function FiftyThirtyTwentyTable(income: real): seq<Entry>
  {
    NeedsTable(income * 0.5) + WantsTable(income * 0.3) + SavingsTable(income * 0.2)
  }

  function NeedsTable(needs: real): seq<Entry>
  {
    [(Housing, needs * 0.5), (Food, needs * 0.2), (Transportation, needs * 0.15),
     (Utilities, needs * 0.1), (Healthcare, needs * 0.05)]
  }

  function WantsTable(wants: real): seq<Entry>
  {
    [(Entertainment, wants * 0.4), (DiningOut, wants * 0.3), (Shopping, wants * 0.2), (Travel, wants * 0.1)]
  }

  function SavingsTable(savings: real): seq<Entry>
  {
    [(EmergencyFund, savings * 0.4), (Retirement, savings * 0.6)]
  }

  /** The zero-based table: every unit of income gets a category. */
  function ZeroBasedTable(income: real): seq<Entry>
  {
    [(Housing, income * 0.30), (Food, income * 0.15), (Transportation, income * 0.10),
     (Utilities, income * 0.05), (Healthcare, income * 0.05), (Entertainment, income * 0.05),
     (PersonalCare, income * 0.05), (EmergencyFund, income * 0.10), (Retirement, income * 0.10),
     (Other, income * 0.05)]
  }

  function Table(s: Strategy, income: real): seq<Entry>
  {
    match s
    case FiftyThirtyTwenty => FiftyThirtyTwentyTable(income)
    case ZeroBased => ZeroBasedTable(income)
  }

  /** `calculateBudget(income)` of strategy `s`. */
  function BudgetOf(s: Strategy, income: real): (m: OrderedMap<CategoryType, real>)
    ensures Valid(m)
  {
    BudgetFrom(Table(s, income))
  }

  lemma TotalTwo<T>(s: seq<T>, val: T -> real)
    requires |s| == 2
    ensures Total(s, val) == val(s[0]) + val(s[1])
  {
    var p := s[..1];
    assert p[..0] == [];
    assert Total(p, val) == val(s[0]);
    assert s[..|s| - 1] == p;
  }

  lemma TotalFour<T>(s: seq<T>, val: T -> real)
    requires |s| == 4
    ensures Total(s, val) == val(s[0]) + val(s[1]) + val(s[2]) + val(s[3])
  {
    TotalTwo(s[..2], val);
    assert s[..3][..2] == s[..2];
    assert s[..|s| - 1] == s[..3];
  }

  lemma TotalFive<T>(s: seq<T>, val: T -> real)
    requires |s| == 5
    ensures Total(s, val) == val(s[0]) + val(s[1]) + val(s[2]) + val(s[3]) + val(s[4])
  {
    TotalFour(s[..4], val);
    assert s[..|s| - 1] == s[..4];
  }

  /** The needs part of the 50/30/20 table comes to half of income, the
      wants part to 30% and the savings part to 20%, so the table allocates
      all of income. */
  lemma FiftyThirtyTwentyTotal(income: real)
    ensures Total(NeedsTable(income * 0.5), Value()) == income * 0.5
    ensures Total(WantsTable(income * 0.3), Value()) == income * 0.3
    ensures Total(SavingsTable(income * 0.2), Value()) == income * 0.2
    ensures Total(FiftyThirtyTwentyTable(income), Value()) == income
  {
    var needs, wants, savings := NeedsTable(income * 0.5), WantsTable(income * 0.3), SavingsTable(income * 0.2);
    TotalFive(needs, Value());
    TotalFour(wants, Value());
    TotalTwo(savings, Value());
    TotalAppend(needs + wants, savings, Value());
    TotalAppend(needs, wants, Value());
  }

  lemma ZeroBasedTotal(income: real)
    ensures Total(ZeroBasedTable(income), Value()) == income
  {
    var t := ZeroBasedTable(income);
    TotalFive(t[..5], Value());
    TotalFive(t[5..], Value());
    TotalAppend(t[..5], t[5..], Value());
    assert t == t[..5] + t[5..];
  }

  lemma TablesNonNegative(income: real)
    requires income >= 0.0
    ensures forall e :: e in ZeroBasedTable(income) ==> e.1 >= 0.0
    ensures forall e :: e in FiftyThirtyTwentyTable(income) ==> e.1 >= 0.0
  {
    assert forall e :: e in NeedsTable(income * 0.5) ==> e.1 >= 0.0;
    assert forall e :: e in WantsTable(income * 0.3) ==> e.1 >= 0.0;
    assert forall e :: e in SavingsTable(income * 0.2) ==> e.1 >= 0.0;
  }

  /** A map whose entries carry no negative value holds no negative value. */
  lemma NonNegativeFromEntries(m: OrderedMap<CategoryType, real>)
    requires Valid(m)
    requires forall e :: e in Entries(m) ==> e.1 >= 0.0
    ensures forall c :: c in m.values ==> m.values[c] >= 0.0
  {
    forall c | c in m.values ensures m.values[c] >= 0.0 {
      var i :| 0 <= i < |m.keys| && m.keys[i] == c;
      assert Entries(m)[i] in Entries(m);
    }
  }

  /** Filling a map from a table of distinct categories: one key per row,
      the rows as its entries, the table's total as its sum, and no
      negative value when the table has none. */
  lemma TableBudget(t: seq<Entry>)
    requires DistinctCategories(t)
    ensures var m := BudgetFrom(t);
      && |m.keys| == |t|
      && Entries(m) == t
      && Sum(m) == Total(t, Value())
      && ((forall e :: e in t ==> e.1 >= 0.0) ==> forall c :: c in m.values ==> m.values[c] >= 0.0)
  {
    var m := BudgetFrom(t);
    BudgetFromEntries(t);
    if forall e :: e in t ==> e.1 >= 0.0 {
      NonNegativeFromEntries(m);
    }
  }

  /** The 50/30/20 budget sets exactly eleven categories, allocates all of
      income, and allocates nothing negative out of a non-negative income. */
  lemma FiftyThirtyTwentyBudget(income: real)
    ensures var m := BudgetOf(FiftyThirtyTwenty, income);
      && |m.keys| == 11
      && Entries(m) == FiftyThirtyTwentyTable(income)
      && Sum(m) == income
      && (income >= 0.0 ==> forall c :: c in m.values ==> m.values[c] >= 0.0)
  {
    var t := FiftyThirtyTwentyTable(income);
    assert DistinctCategories(t);
    TableBudget(t);
    FiftyThirtyTwentyTotal(income);
    if income >= 0.0 {
      TablesNonNegative(income);
    }
  }

  /** The zero-based budget sets exactly ten categories and allocates all of
      income, nothing negative out of a non-negative income. */
  lemma ZeroBasedBudget(income: real)
    ensures var m := BudgetOf(ZeroBased, income);
      && |m.keys| == 10
      && Entries(m) == ZeroBasedTable(income)
      && Sum(m) == income
      && (income >= 0.0 ==> forall c :: c in m.values ==> m.values[c] >= 0.0)
  {
    var t := ZeroBasedTable(income);
    ZeroBasedTableFacts(income);
    TableBudget(t);
    ZeroBasedTotal(income);
    if income >= 0.0 {
      TablesNonNegative(income);
    }
  }

  // ---------------------------------------------------------------- 50/30/20 advice

  datatype Bucket = Needs | Wants | SavingsBucket | Unbudgeted

  const NeedsCategories: set<CategoryType> := {Housing, Food, Transportation, Utilities, Healthcare}
  const WantsCategories: set<CategoryType> := {Entertainment, DiningOut, Shopping, Travel, PersonalCare}
  const SavingsCategories: set<CategoryType> := {EmergencyFund, Retirement, Vacation, EducationSavings}

  /** The bucket an expense category counts in: the first of the three
      lists that holds it, if any. */
  function BucketOf(c: CategoryType): Bucket
  {
    match c
    case Housing | Food | Transportation | Utilities | Healthcare => Needs
    case Entertainment | DiningOut | Shopping | Travel | PersonalCare => Wants
    case EmergencyFund | Retirement | Vacation | EducationSavings => SavingsBucket
    case _ => Unbudgeted
  }

  /** The three lists share no category, so each category is in at most one
      bucket, and it is in a bucket exactly when that bucket's list holds it. */
  lemma BucketLists(c: CategoryType)
    ensures BucketOf(c) == Needs <==> c in NeedsCategories
    ensures BucketOf(c) == Wants <==> c in WantsCategories
    ensures BucketOf(c) == SavingsBucket <==> c in SavingsCategories
  {
  }

  function ExpenseInBucket(b: Bucket): Tx -> bool
  {
    (t: Tx) => t.kind == Expense && BucketOf(t.category) == b
  }

  /** Income and the expenses of each bucket. */
  datatype Tally = Tally(income: real, needs: real, wants: real, savings: real)

  /** One transaction added to a tally, as the 50/30/20 loop does: an income
      to income, an expense to the bucket of its category, if any. */
  function TallyStep(t: Tally, tx: Tx): Tally
  {
    if tx.kind == Income then t.(income := t.income + tx.amount)
    else if tx.kind == Expense then
      match BucketOf(tx.category)
      case Needs => t.(needs := t.needs + tx.amount)
      case Wants => t.(wants := t.wants + tx.amount)
      case SavingsBucket => t.(savings := t.savings + tx.amount)
      case Unbudgeted => t
    else t
  }

  /** The four running totals after every transaction of `txs`, in order. */
  function TallyOf(txs: seq<Tx>): Tally
  {
    if txs == [] then Tally(0.0, 0.0, 0.0, 0.0)
    else TallyStep(TallyOf(txs[..|txs| - 1]), txs[|txs| - 1])
  }

  /** The running total of a bucket. */
  function BucketTotal(t: Tally, b: Bucket): real
    requires b != Unbudgeted
  {
    match b
    case Needs => t.needs
    case Wants => t.wants
    case SavingsBucket => t.savings
  }

  /** The income total is the sum of all incomes. */
  lemma {:induction false} TallyIncome(txs: seq<Tx>)
    ensures TallyOf(txs).income == SumAmounts(Where(txs, IsIncome()))
  {
    if txs != [] {
      var init, last := txs[..|txs| - 1], txs[|txs| - 1];
      assert txs == init + [last];
      TallyIncome(init);
      SumWhereSnoc(init, last, IsIncome());
    }
  }

  /** Each bucket's total is the sum of the expenses in its categories. */
  lemma {:induction false} TallyBucket(txs: seq<Tx>, b: Bucket)
    requires b != Unbudgeted
    ensures BucketTotal(TallyOf(txs), b) == SumAmounts(Where(txs, ExpenseInBucket(b)))
  {
    if txs != [] {
      var init, last := txs[..|txs| - 1], txs[|txs| - 1];
      assert txs == init + [last];
      TallyBucket(init, b);
      BucketStep(TallyOf(init), last, b);
      SumWhereSnoc(init, last, ExpenseInBucket(b));
    }
  }

  lemma BucketStep(t: Tally, tx: Tx, b: Bucket)
    requires b != Unbudgeted
    ensures BucketTotal(TallyStep(t, tx), b) == BucketTotal(t, b) + if ExpenseInBucket(b)(tx) then tx.amount else 0.0
  {
  }

  lemma BucketsStep(t: Tally, tx: Tx)
    ensures var r := TallyStep(t, tx);
      r.needs + r.wants + r.savings
        == t.needs + t.wants + t.savings + if tx.kind == Expense && BucketOf(tx.category) != Unbudgeted then tx.amount else 0.0
  {
  }

  /** The running totals are the sums of incomes and of each bucket's expenses. */
  lemma TallySums(txs: seq<Tx>)
    ensures TallyOf(txs) == Tally(SumAmounts(Where(txs, IsIncome())),
                                  SumAmounts(Where(txs, ExpenseInBucket(Needs))),
                                  SumAmounts(Where(txs, ExpenseInBucket(Wants))),
                                  SumAmounts(Where(txs, ExpenseInBucket(SavingsBucket))))
  {
    TallyIncome(txs);
    TallyBucket(txs, Needs);
    TallyBucket(txs, Wants);
    TallyBucket(txs, SavingsBucket);
  }

  /** Every expense lands in exactly one bucket (counting "unbudgeted"), so
      the buckets add up to all expenses. */
  lemma {:induction false} BucketsPartitionExpenses(txs: seq<Tx>)
    ensures var t := TallyOf(txs);
      t.needs + t.wants + t.savings + SumAmounts(Where(txs, ExpenseInBucket(Unbudgeted)))
        == SumAmounts(Where(txs, IsExpense()))
  {
    if txs != [] {
      var init, last := txs[..|txs| - 1], txs[|txs| - 1];
      assert txs == init + [last];
      BucketsPartitionExpenses(init);
      BucketsStep(TallyOf(init), last);
      SumWhereSnoc(init, last, IsExpense());
      SumWhereSnoc(init, last, ExpenseInBucket(Unbudgeted));
    }
  }

  /** A ratio above or below a fraction of a positive income, stated on the amounts. */
  lemma RatioAbove(x: real, income: real, f: real)
    requires income > 0.0
    ensures x / income > f <==> x > f * income
    ensures x / income < f <==> x < f * income
  {
    var q := x / income;
    assert q * income == x;
    if q > f { assert q * income > f * income; }
    if q < f { assert q * income < f * income; }
    if x > f * income { assert q * income > f * income; }
    if x < f * income { assert q * income < f * income; }
  }

  /** The rank of a 50/30/20 message in the order the rule checks them. */
  function Rank(m: BudgetMessage): int
  {
    match m
    case NeedsAbove(_) => 0
    case WantsAbove(_) => 1
    case SavingsBelow(_) => 2
    case _ => 3
  }

  /** The 50/30/20 advice on a tally: nothing without income; otherwise the
      checks on needs, wants and savings, in that order, at most one each. */
  function FiftyThirtyTwentyAdvice(t: Tally): (r: seq<BudgetMessage>)
    ensures t.income <= 0.0 ==> r == []
    ensures |r| <= 3
    ensures forall i, j :: 0 <= i < j < |r| ==> Rank(r[i]) < Rank(r[j])
  {
    if t.income > 0.0 then
      var needsRatio := t.needs / t.income;
      var wantsRatio := t.wants / t.income;
      var savingsRatio := t.savings / t.income;
      (if needsRatio > 0.5 then [NeedsAbove(Round(needsRatio * 100.0))] else [])
      + (if wantsRatio > 0.3 then [WantsAbove(Round(wantsRatio * 100.0))] else [])
      + (if savingsRatio < 0.2 then [SavingsBelow(Round(savingsRatio * 100.0))] else [])
    else []
  }

  /** With income, there is a message for needs above half of income, for
      wants above 30% of it and for savings below 20% of it, and for nothing
      else; each message carries its share of income in whole percent. */
  lemma FiftyThirtyTwentyAdviceFacts(t: Tally)
    requires t.income > 0.0
    ensures var r := FiftyThirtyTwentyAdvice(t);
      && (NeedsAbove(Round(t.needs / t.income * 100.0)) in r <==> t.needs > 0.5 * t.income)
      && (WantsAbove(Round(t.wants / t.income * 100.0)) in r <==> t.wants > 0.3 * t.income)
      && (SavingsBelow(Round(t.savings / t.income * 100.0)) in r <==> t.savings < 0.2 * t.income)
      && (forall m :: m in r ==>
            || m == NeedsAbove(Round(t.needs / t.income * 100.0))
            || m == WantsAbove(Round(t.wants / t.income * 100.0))
            || m == SavingsBelow(Round(t.savings / t.income * 100.0)))
  {
    RatioAbove(t.needs, t.income, 0.5);
    RatioAbove(t.wants, t.income, 0.3);
    RatioAbove(t.savings, t.income, 0.2);
  }

  /** `getRecommendations` of the 50/30/20 rule: one pass over the
      transactions keeping four running totals, then the advice. */
  method FiftyThirtyTwentyRecommendations(transactions: seq<Tx>) returns (r: seq<BudgetMessage>)
    ensures r == FiftyThirtyTwentyAdvice(TallyOf(transactions))
  {
    var totalNeeds, totalWants, totalSavings, totalIncome := 0.0, 0.0, 0.0, 0.0;
    for i := 0 to |transactions|
      invariant Tally(totalIncome, totalNeeds, totalWants, totalSavings) == TallyOf(transactions[..i])
    {
      var t := transactions[i];
      assert transactions[..i + 1][..i] == transactions[..i];
      BucketLists(t.category);
      if t.kind == Income {
        totalIncome := totalIncome + t.amount;
      } else if t.kind == Expense {
        if t.category in NeedsCategories {
          totalNeeds := totalNeeds + t.amount;
        } else if t.category in WantsCategories {
          totalWants := totalWants + t.amount;
        } else if t.category in SavingsCategories {
          totalSavings := totalSavings + t.amount;
        }
      }
    }
    assert transactions[..|transactions|] == transactions;
    r := [];
    if totalIncome > 0.0 {
      var needsRatio := totalNeeds / totalIncome;
      var wantsRatio := totalWants / totalIncome;
      var savingsRatio := totalSavings / totalIncome;
      if needsRatio > 0.5 {
        r := r + [NeedsAbove(Round(needsRatio * 100.0))];
      }
      if wantsRatio > 0.3 {
        r := r + [WantsAbove(Round(wantsRatio * 100.0))];
      }
      if savingsRatio < 0.2 {
        r := r + [SavingsBelow(Round(savingsRatio * 100.0))];
      }
    }
  }

  // ---------------------------------------------------------------- zero-based advice

  /** The verdict on one category: overspent when spending exceeds the
      allocation, under-used when it stays below 80% of it, otherwise none. */
  function Verdict(c: CategoryType, budget: real, spent: real): (r: seq<BudgetMessage>)
    ensures |r| <= 1
    ensures r == [Overspent(c, spent - budget)] <==> spent > budget
    ensures r == [Underused(c, spent, budget)] <==> spent <= budget && spent < budget * 0.8
    ensures r == [] <==> budget * 0.8 <= spent <= budget
    ensures forall m :: m in r ==> (m.Overspent? || m.Underused?) && m.category == c
  {
    if spent > budget then [Overspent(c, spent - budget)]
    else if spent < budget * 0.8 then [Underused(c, spent, budget)]
    else []
  }

  /** The verdicts on the entries of a budget, in the budget's order. */
  function Compare(entries: seq<Entry>, spent: OrderedMap<CategoryType, real>): (r: seq<BudgetMessage>)
    ensures |r| <= |entries|
  {
    if entries == [] then []
    else Verdict(entries[0].0, entries[0].1, Get(spent, entries[0].0, 0.0)) + Compare(entries[1..], spent)
  }

  /** The comparison works row by row: a single row gives exactly its verdict, and a
      concatenation is compared part by part, so the verdicts follow the table's order. */
  lemma {:induction false} CompareAppend(xs: seq<Entry>, ys: seq<Entry>, spent: OrderedMap<CategoryType, real>)
    ensures Compare(xs + ys, spent) == Compare(xs, spent) + Compare(ys, spent)
  {
    if xs == [] {
      assert xs + ys == ys;
    } else {
      assert (xs + ys)[0] == xs[0] && (xs + ys)[1..] == xs[1..] + ys;
      CompareAppend(xs[1..], ys, spent);
    }
  }

  lemma CompareSingle(e: Entry, spent: OrderedMap<CategoryType, real>)
    ensures Compare([e], spent) == Verdict(e.0, e.1, Get(spent, e.0, 0.0))
  {
    assert [e][1..] == [];
  }

  /** The messages are exactly the rows' verdicts. */
  lemma {:induction false} CompareMembers(entries: seq<Entry>, spent: OrderedMap<CategoryType, real>)
    ensures forall m :: m in Compare(entries, spent) <==>
      exists i :: 0 <= i < |entries| && m in Verdict(entries[i].0, entries[i].1, Get(spent, entries[i].0, 0.0))
  {
    if entries != [] {
      var rest := Compare(entries[1..], spent);
      var r := Compare(entries, spent);
      CompareMembers(entries[1..], spent);
      forall m | m in r ensures exists i :: 0 <= i < |entries| && m in Verdict(entries[i].0, entries[i].1, Get(spent, entries[i].0, 0.0)) {
        if m in rest {
          var i :| 0 <= i < |entries[1..]| && m in Verdict(entries[1..][i].0, entries[1..][i].1, Get(spent, entries[1..][i].0, 0.0));
          assert entries[1..][i] == entries[i + 1];
        }
      }
      forall m, i | 0 <= i < |entries| && m in Verdict(entries[i].0, entries[i].1, Get(spent, entries[i].0, 0.0)) ensures m in r {
        if i > 0 {
          assert entries[1..][i - 1] == entries[i];
        }
      }
    }
  }

  /** Over a table of distinct categories, each category gets exactly its
      own verdict: overspent by the excess when spending exceeds its row,
      under-used when spending stays below 80% of it. */
  lemma CompareFacts(entries: seq<Entry>, spent: OrderedMap<CategoryType, real>)
    requires DistinctCategories(entries)
    ensures var r := Compare(entries, spent);
      forall i :: 0 <= i < |entries| ==>
        var c, b, s := entries[i].0, entries[i].1, Get(spent, entries[i].0, 0.0);
        && (Overspent(c, s - b) in r <==> s > b)
        && (Underused(c, s, b) in r <==> s <= b && s < b * 0.8)
  {
    forall i | 0 <= i < |entries| {
      CompareRow(entries, spent, i);
    }
  }

  /** A message about row `i`'s category can only be row `i`'s verdict. */
  lemma CompareRow(entries: seq<Entry>, spent: OrderedMap<CategoryType, real>, i: int)
    requires DistinctCategories(entries) && 0 <= i < |entries|
    ensures var r := Compare(entries, spent);
      var c, b, s := entries[i].0, entries[i].1, Get(spent, entries[i].0, 0.0);
      && (Overspent(c, s - b) in r <==> s > b)
      && (Underused(c, s, b) in r <==> s <= b && s < b * 0.8)
  {
    var r := Compare(entries, spent);
    var c, b, s := entries[i].0, entries[i].1, Get(spent, entries[i].0, 0.0);
    var v := Verdict(c, b, s);
    CompareMembers(entries, spent);
    assert Overspent(c, s - b) in r <==> Overspent(c, s - b) in v by {
      if Overspent(c, s - b) in r {
        var j :| 0 <= j < |entries| && Overspent(c, s - b) in Verdict(entries[j].0, entries[j].1, Get(spent, entries[j].0, 0.0));
        assert entries[j].0 == c;
      }
    }
    assert Underused(c, s, b) in r <==> Underused(c, s, b) in v by {
      if Underused(c, s, b) in r {
        var j :| 0 <= j < |entries| && Underused(c, s, b) in Verdict(entries[j].0, entries[j].1, Get(spent, entries[j].0, 0.0));
        assert entries[j].0 == c;
      }
    }
  }

  /** Zero-based advice: the budget of total income, category by category, against the expense totals. */
  function ZeroBasedAdvice(txs: seq<Tx>): (r: seq<BudgetMessage>)
    ensures forall m :: m in r ==> (m.Overspent? || m.Underused?) && m.category in BudgetOf(ZeroBased, TotalIncomeOf(txs)).values
  {
    CompareMessages(Entries(BudgetOf(ZeroBased, TotalIncomeOf(txs))), ExpenseTotals(txs));
    Compare(Entries(BudgetOf(ZeroBased, TotalIncomeOf(txs))), ExpenseTotals(txs))
  }

  /** The sum of all incomes. */
  function TotalIncomeOf(txs: seq<Tx>): real
  {
    SumAmounts(Where(txs, IsIncome()))
  }

  /** Every message is an overspent or under-used verdict about one of the table's categories. */
  lemma CompareMessages(table: seq<Entry>, spent: OrderedMap<CategoryType, real>)
    ensures forall m :: m in Compare(table, spent) ==>
      (m.Overspent? || m.Underused?) && exists i :: 0 <= i < |table| && m.category == table[i].0
  {
    CompareMembers(table, spent);
    forall m | m in Compare(table, spent) ensures (m.Overspent? || m.Underused?) && exists i :: 0 <= i < |table| && m.category == table[i].0 {
      var i :| 0 <= i < |table| && m in Verdict(table[i].0, table[i].1, Get(spent, table[i].0, 0.0));
    }
  }

  /** Row `i` of `table` gets exactly its verdict on the expenses recorded in its category. */
  ghost predicate ExpenseRowVerdict(txs: seq<Tx>, table: seq<Entry>, i: int)
    requires 0 <= i < |table|
  {
    var r := Compare(table, ExpenseTotals(txs));
    var c, b, spent := table[i].0, table[i].1, SumAmounts(Where(txs, ExpenseIn(table[i].0)));
    && (Overspent(c, spent - b) in r <==> spent > b)
    && (Underused(c, spent, b) in r <==> spent <= b && spent < b * 0.8)
  }

  /** Over a table of distinct categories, each row gets exactly its verdict
      on the expenses recorded in its category. */
  lemma CompareExpenseRows(txs: seq<Tx>, table: seq<Entry>)
    requires DistinctCategories(table)
    ensures forall i :: 0 <= i < |table| ==> ExpenseRowVerdict(txs, table, i)
  {
    forall i | 0 <= i < |table| ensures ExpenseRowVerdict(txs, table, i) {
      CompareExpenseRow(txs, table, i);
    }
  }

  lemma CompareExpenseRow(txs: seq<Tx>, table: seq<Entry>, i: int)
    requires DistinctCategories(table) && 0 <= i < |table|
    ensures ExpenseRowVerdict(txs, table, i)
  {
    CompareRow(table, ExpenseTotals(txs), i);
    ExpenseTotalsGet(txs, table[i].0);
  }

  /** The zero-based table has ten distinct categories, dining out not among
      them, and allocates nothing at all out of no income. */
  lemma ZeroBasedTableFacts(income: real)
    ensures var t := ZeroBasedTable(income);
      && |t| == 10
      && DistinctCategories(t)
      && (forall i :: 0 <= i < |t| ==> t[i].0 != DiningOut)
      && (income == 0.0 ==> forall i :: 0 <= i < |t| ==> t[i].1 == 0.0)
  {
  }

  /** Zero-based advice is the comparison of its table with the expense
      totals: at most one message per allocated category, none about a
      category the table does not allocate (dining out, say); each row's
      verdict is given by CompareExpenseRows. */
  lemma ZeroBasedAdviceFacts(txs: seq<Tx>)
    ensures var r := ZeroBasedAdvice(txs);
      && r == Compare(ZeroBasedTable(TotalIncomeOf(txs)), ExpenseTotals(txs))
      && |r| <= 10
      && (forall m :: m in r ==> (m.Overspent? || m.Underused?) && m.category != DiningOut)
  {
    var income := TotalIncomeOf(txs);
    var table := ZeroBasedTable(income);
    assert ZeroBasedAdvice(txs) == Compare(table, ExpenseTotals(txs)) by {
      ZeroBasedBudget(income);
    }
    ZeroBasedTableFacts(income);
    CompareMessages(table, ExpenseTotals(txs));
  }

  /** Without income every allocation is zero: a category is flagged as
      overspent exactly when its expenses add up to more than nothing, and
      as under-used exactly when they add up to less. */
  lemma ZeroBasedWithoutIncome(txs: seq<Tx>)
    requires TotalIncomeOf(txs) == 0.0
    ensures var r := ZeroBasedAdvice(txs);
      var table := ZeroBasedTable(TotalIncomeOf(txs));
      forall i :: 0 <= i < |table| ==>
        var c := table[i].0;
        var spent := SumAmounts(Where(txs, ExpenseIn(c)));
        && (Overspent(c, spent) in r <==> spent > 0.0)
        && (Underused(c, spent, 0.0) in r <==> spent < 0.0)
  {
    var table := ZeroBasedTable(TotalIncomeOf(txs));
    ZeroBasedAdviceFacts(txs);
    ZeroBasedTableFacts(TotalIncomeOf(txs));
    forall i | 0 <= i < |table|
      ensures var c := table[i].0;
        var spent := SumAmounts(Where(txs, ExpenseIn(c)));
        && (Overspent(c, spent) in ZeroBasedAdvice(txs) <==> spent > 0.0)
        && (Underused(c, spent, 0.0) in ZeroBasedAdvice(txs) <==> spent < 0.0)
    {
      CompareExpenseRow(txs, table, i);
      assert table[i].1 == 0.0;
    }
  }

  /** The advice of strategy `s` on `txs`. */
  function AdviceOf(s: Strategy, txs: seq<Tx>): seq<BudgetMessage>
  {
    match s
    case FiftyThirtyTwenty => FiftyThirtyTwentyAdvice(TallyOf(txs))
    case ZeroBased => ZeroBasedAdvice(txs)
  }

  // ---------------------------------------------------------------- the strategy holder

  /** Holds the active strategy and answers every request with it. */
  class BudgetStrategyContext {
    var strategy: Strategy

    constructor (strategy: Strategy)
      ensures this.strategy == strategy
    {
      this.strategy := strategy;
    }

    method SetStrategy(strategy: Strategy)
      modifies this
      ensures this.strategy == strategy
    {
      this.strategy := strategy;
    }

    method CalculateBudget(income: real) returns (m: OrderedMap<CategoryType, real>)
      ensures m == BudgetOf(strategy, income)
      ensures Sum(m) == income
    {
      m := BudgetOf(strategy, income);
      match strategy
      case FiftyThirtyTwenty => FiftyThirtyTwentyBudget(income);
      case ZeroBased => ZeroBasedBudget(income);
    }

    method GetRecommendations(transactions: seq<Tx>) returns (r: seq<BudgetMessage>)
      ensures r == AdviceOf(strategy, transactions)
    {
      match strategy
      case FiftyThirtyTwenty =>
        r := FiftyThirtyTwentyRecommendations(transactions);
      case ZeroBased =>
        r := ZeroBasedAdvice(transactions);
    }

    function GetStrategyName(): string
      reads this
    {
      Name(strategy)
    }

    function GetStrategyDescription(): string
      reads this
    {
      Description(strategy)
    }
  }
}
