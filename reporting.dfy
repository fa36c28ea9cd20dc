/** The reports the ledger builds from a list of transactions and from a
    user: income against expenses with a monthly series, expenses by
    category, savings-goal progress and net worth. Report ids, titles,
    creation times and chart types are not modelled; the data is. */
module Reporting {
  import opened Types
  import opened JsNumber
  import opened Strings
  import opened Sorting
  import opened OrderedMaps
  import opened Aggregates
  import opened Composite
  import opened Goals
  import Finance

  /** `whole > 0 ? (part / whole) * 100 : 0`. */
  function PercentOf(part: real, whole: real): (p: real)
    ensures whole <= 0.0 ==> p == 0.0
    ensures whole > 0.0 ==> p * whole == part * 100.0
  {
    if whole > 0.0 then part / whole * 100.0 else 0.0
  }

  /** Percentages of parts that add up to a positive whole add up to 100. */
  lemma {:induction false} PercentagesAddUp<T>(s: seq<T>, part: T -> real, pct: T -> real, whole: real)
    requires whole > 0.0
    requires forall i :: 0 <= i < |s| ==> pct(s[i]) == PercentOf(part(s[i]), whole)
    ensures Total(s, pct) * whole == Total(s, part) * 100.0
  {
    if s != [] {
      PercentagesAddUp(s[..|s| - 1], part, pct, whole);
      var x := s[|s| - 1];
      assert pct(x) * whole == part(x) * 100.0;
      assert Total(s, pct) * whole == Total(s[..|s| - 1], pct) * whole + pct(x) * whole;
    }
  }

  /** Shares of parts that make up the whole add up to 100. */
  lemma SharesAddUp<T>(s: seq<T>, part: T -> real, pct: T -> real, whole: real)
    requires whole > 0.0 && Total(s, part) == whole
    requires forall i :: 0 <= i < |s| ==> pct(s[i]) == PercentOf(part(s[i]), whole)
    ensures Total(s, pct) == 100.0
  {
    PercentagesAddUp(s, part, pct, whole);
    Cancel(Total(s, pct), 100.0, whole);
  }

  lemma Cancel(x: real, y: real, w: real)
    requires w > 0.0 && x * w == y * w
    ensures x == y
  {
    assert (x - y) * w == 0.0;
  }

  // ---------------------------------------------------------------------
  // Income against expenses

  datatype Summary = Summary(totalIncome: real, totalExpenses: real, netCashflow: real, savingsRate: real)

  /** The savings rate as a percentage of income; 0 without positive income. */
  function SavingsRate(income: real, expenses: real): (r: real)
  {
    if income > 0.0 then (income - expenses) / income * 100.0 else 0.0
  }

  /** With positive income the rate is positive exactly when expenses stay
      below income, and at most 100 exactly when expenses are not negative. */
  lemma SavingsRateMeaning(income: real, expenses: real)
    ensures income <= 0.0 ==> SavingsRate(income, expenses) == 0.0
    ensures income > 0.0 ==> (SavingsRate(income, expenses) > 0.0 <==> expenses < income)
    ensures income > 0.0 ==> (SavingsRate(income, expenses) <= 100.0 <==> expenses >= 0.0)
    ensures income > 0.0 ==> (SavingsRate(income, expenses) == 100.0 <==> expenses == 0.0)
  {
    if income > 0.0 {
      var r := SavingsRate(income, expenses);
      assert r * income == (income - expenses) * 100.0;
    }
  }

  function SummaryOf(txs: seq<Tx>): (r: Summary)
    ensures r.netCashflow == r.totalIncome - r.totalExpenses
    ensures r.totalIncome <= 0.0 ==> r.savingsRate == 0.0
    ensures r.totalIncome > 0.0 ==> (r.savingsRate > 0.0 <==> r.totalExpenses < r.totalIncome)
  {
    var income := SumAmounts(Where(txs, IsIncome()));
    var expenses := SumAmounts(Where(txs, IsExpense()));
    SavingsRateMeaning(income, expenses);
    Summary(income, expenses, income - expenses, SavingsRate(income, expenses))
  }

  /** The income and expenses of one month. */
  datatype MonthData = MonthData(income: real, expenses: real)

  /** One line of the monthly series; `month` is the `"Y-M"` key the series is sorted by. */
  datatype MonthRow = MonthRow(month: string, income: real, expenses: real, savings: real)

  datatype IncomeReport = IncomeReport(summary: Summary, monthly: seq<MonthRow>)

  /** `${year}-${month + 1}`: the month is not padded to two digits. */
  function MonthKey(d: Date): string
  {
    IntToString(d.year) + "-" + IntToString(d.monthIndex + 1)
  }

  /** Adds `t` to its month: income and expenses accumulate, other kinds leave the amounts alone. */
  function Credit(data: MonthData, t: Tx): (r: MonthData)
    ensures r.income == data.income + (if t.kind == Income then t.amount else 0.0)
    ensures r.expenses == data.expenses + (if t.kind == Expense then t.amount else 0.0)
  {
    if t.kind == Income then data.(income := data.income + t.amount)
    else if t.kind == Expense then data.(expenses := data.expenses + t.amount)
    else data
  }

  const NoActivity := MonthData(0.0, 0.0)

  /** Transactions grouped by `key`, one transaction at a time, in a map that
      remembers first insertion; every transaction, whatever its kind, makes
      its key an entry. */
  function Group<K>(txs: seq<Tx>, key: Tx -> K): (m: OrderedMap<K, MonthData>)
    ensures Valid(m)
  {
    if txs == [] then Empty()
    else
      var m := Group(txs[..|txs| - 1], key);
      var t := txs[|txs| - 1];
      Put(m, key(t), Credit(Get(m, key(t), NoActivity), t))
  }

  /** Adding one transaction changes only the group of its own key. */
  lemma GroupStep<K>(txs: seq<Tx>, key: Tx -> K, k: K)
    requires txs != []
    ensures var before := Get(Group(txs[..|txs| - 1], key), k, NoActivity);
            var t := txs[|txs| - 1];
            Get(Group(txs, key), k, NoActivity) == if key(t) == k then Credit(before, t) else before
  {
  }

  /** A group holds the income of its key. */
  lemma {:induction false} GroupIncome<K>(txs: seq<Tx>, key: Tx -> K, k: K, inc: Tx -> bool)
    requires forall t :: inc(t) == (t.kind == Income && key(t) == k)
    ensures Get(Group(txs, key), k, NoActivity).income == SumAmounts(Where(txs, inc))
  {
    if txs != [] {
      var init, t := txs[..|txs| - 1], txs[|txs| - 1];
      assert txs == init + [t];
      GroupIncome(init, key, k, inc);
      GroupStep(txs, key, k);
      SumWhereSnoc(init, t, inc);
    }
  }

  /** A group holds the expenses of its key. */
  lemma {:induction false} GroupExpenses<K>(txs: seq<Tx>, key: Tx -> K, k: K, exp: Tx -> bool)
    requires forall t :: exp(t) == (t.kind == Expense && key(t) == k)
    ensures Get(Group(txs, key), k, NoActivity).expenses == SumAmounts(Where(txs, exp))
  {
    if txs != [] {
      var init, t := txs[..|txs| - 1], txs[|txs| - 1];
      assert txs == init + [t];
      GroupExpenses(init, key, k, exp);
      GroupStep(txs, key, k);
      SumWhereSnoc(init, t, exp);
    }
  }

  /** A key has a group exactly when some transaction has that key. */
  lemma {:induction false} GroupKeys<K>(txs: seq<Tx>, key: Tx -> K, k: K)
    ensures k in Group(txs, key).values <==> exists t :: t in txs && key(t) == k
  {
    if txs != [] {
      var init, t := txs[..|txs| - 1], txs[|txs| - 1];
      assert txs == init + [t];
      GroupKeys(init, key, k);
    }
  }

  /** The column of one kind of transaction: the same keys, in the same
      order, each holding the amounts of that kind with that key. */
  function Column<K>(txs: seq<Tx>, key: Tx -> K, kind: TransactionType): (m: OrderedMap<K, real>)
    ensures Valid(m)
  {
    if txs == [] then Empty()
    else
      var t := txs[|txs| - 1];
      AddTo(Column(txs[..|txs| - 1], key, kind), key(t), if t.kind == kind then t.amount else 0.0)
  }

  /** A column has the groups' keys in the groups' order. */
  lemma {:induction false} ColumnKeys<K>(txs: seq<Tx>, key: Tx -> K, kind: TransactionType)
    ensures Column(txs, key, kind).keys == Group(txs, key).keys
  {
    if txs != [] {
      var init := txs[..|txs| - 1];
      var k := key(txs[|txs| - 1]);
      ColumnKeys(init, key, kind);
      assert k in Column(init, key, kind).values <==> k in Group(init, key).values;
    }
  }

  lemma {:induction false} ColumnGet<K>(txs: seq<Tx>, key: Tx -> K, kind: TransactionType, k: K, keep: Tx -> bool)
    requires forall t :: keep(t) == (t.kind == kind && key(t) == k)
    ensures Get(Column(txs, key, kind), k, 0.0) == SumAmounts(Where(txs, keep))
  {
    if txs != [] {
      var init, t := txs[..|txs| - 1], txs[|txs| - 1];
      assert txs == init + [t];
      ColumnGet(init, key, kind, k, keep);
      SumWhereSnoc(init, t, keep);
    }
  }

  /** A column adds up to the total of its kind. */
  lemma {:induction false} ColumnSum<K>(txs: seq<Tx>, key: Tx -> K, kind: TransactionType, keep: Tx -> bool)
    requires forall t :: keep(t) == (t.kind == kind)
    ensures Sum(Column(txs, key, kind)) == SumAmounts(Where(txs, keep))
  {
    if txs != [] {
      var init, t := txs[..|txs| - 1], txs[|txs| - 1];
      assert txs == init + [t];
      ColumnSum(init, key, kind, keep);
      AddToSum(Column(init, key, kind), key(t), if t.kind == kind then t.amount else 0.0);
      SumWhereSnoc(init, t, keep);
    }
  }

  function MonthKeyOf(): Tx -> string
  {
    (t: Tx) => MonthKey(t.date)
  }

  /** The month map of the series. */
  function MonthlyData(txs: seq<Tx>): (m: OrderedMap<string, MonthData>)
    ensures Valid(m)
  {
    Group(txs, MonthKeyOf())
  }

  function IncomeInMonth(k: string): Tx -> bool
  {
    (t: Tx) => t.kind == Income && MonthKey(t.date) == k
  }

  function ExpenseInMonth(k: string): Tx -> bool
  {
    (t: Tx) => t.kind == Expense && MonthKey(t.date) == k
  }

  /** A month's entry holds the income and the expenses dated in that month. */
  lemma MonthlyDataGet(txs: seq<Tx>, k: string)
    ensures Get(MonthlyData(txs), k, NoActivity)
         == MonthData(SumAmounts(Where(txs, IncomeInMonth(k))), SumAmounts(Where(txs, ExpenseInMonth(k))))
  {
    GroupIncome(txs, MonthKeyOf(), k, IncomeInMonth(k));
    GroupExpenses(txs, MonthKeyOf(), k, ExpenseInMonth(k));
  }

  /** A month is a key exactly when some transaction is dated in it. */
  lemma MonthlyDataKeys(txs: seq<Tx>, k: string)
    ensures k in MonthlyData(txs).values <==> exists t :: t in txs && MonthKey(t.date) == k
  {
    GroupKeys(txs, MonthKeyOf(), k);
  }

  /** The income and expenses columns hold, key by key, what the month map holds. */
  lemma ColumnsAgree(txs: seq<Tx>)
    ensures Column(txs, MonthKeyOf(), Income).keys == MonthlyData(txs).keys
    ensures Column(txs, MonthKeyOf(), Expense).keys == MonthlyData(txs).keys
    ensures forall k :: k in MonthlyData(txs).values ==>
      && k in Column(txs, MonthKeyOf(), Income).values && k in Column(txs, MonthKeyOf(), Expense).values
      && Column(txs, MonthKeyOf(), Income).values[k] == MonthlyData(txs).values[k].income
      && Column(txs, MonthKeyOf(), Expense).values[k] == MonthlyData(txs).values[k].expenses
  {
    ColumnKeys(txs, MonthKeyOf(), Income);
    ColumnKeys(txs, MonthKeyOf(), Expense);
    forall k | k in MonthlyData(txs).values
      ensures Column(txs, MonthKeyOf(), Income).values[k] == MonthlyData(txs).values[k].income
      ensures Column(txs, MonthKeyOf(), Expense).values[k] == MonthlyData(txs).values[k].expenses
    {
      MonthlyDataGet(txs, k);
      ColumnGet(txs, MonthKeyOf(), Income, k, IncomeInMonth(k));
      ColumnGet(txs, MonthKeyOf(), Expense, k, ExpenseInMonth(k));
    }
  }

  function RowOf(k: string, d: MonthData): MonthRow
  {
    MonthRow(k, d.income, d.expenses, d.income - d.expenses)
  }

  /** The rows of `keys`, in the order of `keys`. */
  function RowsFor(keys: seq<string>, m: OrderedMap<string, MonthData>): (r: seq<MonthRow>)
    requires forall k :: k in keys ==> k in m.values
    ensures |r| == |keys|
    ensures forall i :: 0 <= i < |r| ==> r[i] == RowOf(keys[i], m.values[keys[i]])
  {
    if keys == [] then []
    else RowsFor(keys[..|keys| - 1], m) + [RowOf(keys[|keys| - 1], m.values[keys[|keys| - 1]])]
  }

  /** The month map's entries sorted by key. Keys are distinct, so sorting
      the keys and looking each one up gives the same list as sorting the
      entries by key. */
  function MonthlySeries(txs: seq<Tx>): (r: seq<MonthRow>)
    ensures |r| == |MonthlyData(txs).keys|
    ensures forall i :: 0 <= i < |r| ==> r[i].month in MonthlyData(txs).values && r[i].savings == r[i].income - r[i].expenses
  {
    var m := MonthlyData(txs);
    SortStringsFacts(m.keys);
    assert forall k :: k in SortStrings(m.keys) ==> k in multiset(m.keys);
    RowsFor(SortStrings(m.keys), m)
  }

  function IncomeVsExpense(txs: seq<Tx>): (r: IncomeReport)
    ensures r.summary.netCashflow == r.summary.totalIncome - r.summary.totalExpenses
    ensures |r.monthly| == |MonthlyData(txs).keys|
  {
    IncomeReport(SummaryOf(txs), MonthlySeries(txs))
  }

  /** The months of the series, as a set. */
  function Months(rows: seq<MonthRow>): set<string>
  {
    set i | 0 <= i < |rows| :: rows[i].month
  }

  /** The series lists no month twice, in code-unit order of the `"Y-M"` key. */
  lemma MonthlySeriesOrder(txs: seq<Tx>)
    ensures var rows := MonthlySeries(txs);
      forall i, j :: 0 <= i < j < |rows| ==> rows[i].month != rows[j].month && LexLe(rows[i].month, rows[j].month)
  {
    var m := MonthlyData(txs);
    SortStringsFacts(m.keys);
    DistinctPermutation(m.keys, SortStrings(m.keys));
  }

  /** The series has a row for exactly the months in which some transaction is dated. */
  lemma MonthlySeriesMonths(txs: seq<Tx>)
    ensures Months(MonthlySeries(txs)) == set t | t in txs :: MonthKey(t.date)
  {
    forall k | k in Months(MonthlySeries(txs)) ensures exists t :: t in txs && MonthKey(t.date) == k {
      MonthFromSeries(txs, k);
    }
    forall t | t in txs ensures MonthKey(t.date) in Months(MonthlySeries(txs)) {
      MonthInSeries(txs, t);
    }
  }

  lemma MonthFromSeries(txs: seq<Tx>, k: string)
    requires k in Months(MonthlySeries(txs))
    ensures exists t :: t in txs && MonthKey(t.date) == k
  {
    var m := MonthlyData(txs);
    var keys := SortStrings(m.keys);
    var rows := MonthlySeries(txs);
    var i :| 0 <= i < |rows| && rows[i].month == k;
    assert keys[i] == k;
    SortStringsFacts(m.keys);
    assert k in multiset(m.keys);
    MonthlyDataKeys(txs, k);
  }

  lemma MonthInSeries(txs: seq<Tx>, t: Tx)
    requires t in txs
    ensures MonthKey(t.date) in Months(MonthlySeries(txs))
  {
    var m := MonthlyData(txs);
    var keys := SortStrings(m.keys);
    var rows := MonthlySeries(txs);
    var k := MonthKey(t.date);
    MonthlyDataKeys(txs, k);
    assert k in m.keys;
    SortStringsFacts(m.keys);
    assert k in multiset(keys);
    var i :| 0 <= i < |keys| && keys[i] == k;
    assert rows[i].month == k;
  }

  /** Each row holds its month's income, its month's expenses and their difference. */
  lemma MonthlySeriesRows(txs: seq<Tx>)
    ensures forall row :: row in MonthlySeries(txs) ==>
      && row.income == SumAmounts(Where(txs, IncomeInMonth(row.month)))
      && row.expenses == SumAmounts(Where(txs, ExpenseInMonth(row.month)))
      && row.savings == row.income - row.expenses
  {
    var m := MonthlyData(txs);
    var keys := SortStrings(m.keys);
    var rows := MonthlySeries(txs);
    SortStringsFacts(m.keys);
    forall row | row in rows
      ensures row.income == SumAmounts(Where(txs, IncomeInMonth(row.month)))
      ensures row.expenses == SumAmounts(Where(txs, ExpenseInMonth(row.month)))
    {
      var i :| 0 <= i < |rows| && rows[i] == row;
      assert keys[i] in multiset(m.keys);
      MonthlyDataGet(txs, keys[i]);
    }
  }

  function MonthIncome(): MonthRow -> real { (r: MonthRow) => r.income }
  function MonthExpenses(): MonthRow -> real { (r: MonthRow) => r.expenses }
  function MonthSavings(): MonthRow -> real { (r: MonthRow) => r.savings }

  lemma {:induction false} RowsForTotals(keys: seq<string>, m: OrderedMap<string, MonthData>,
                                        incomes: map<string, real>, expenses: map<string, real>)
    requires forall k :: k in keys ==> k in m.values && k in incomes && k in expenses &&
                                       incomes[k] == m.values[k].income && expenses[k] == m.values[k].expenses
    ensures Total(RowsFor(keys, m), MonthIncome()) == SumOf(keys, incomes)
    ensures Total(RowsFor(keys, m), MonthExpenses()) == SumOf(keys, expenses)
    ensures Total(RowsFor(keys, m), MonthSavings()) == SumOf(keys, incomes) - SumOf(keys, expenses)
  {
    if keys != [] {
      var init := keys[..|keys| - 1];
      RowsForTotals(init, m, incomes, expenses);
      var rows := RowsFor(keys, m);
      assert rows[..|rows| - 1] == RowsFor(init, m);
    }
  }

  /** The monthly series agrees with the summary: its income, expenses and
      savings columns add up to the total income, the total expenses and the
      net cash flow. */
  lemma IncomeReportAddsUp(txs: seq<Tx>)
    ensures var r := IncomeVsExpense(txs);
      && Total(r.monthly, MonthIncome()) == r.summary.totalIncome
      && Total(r.monthly, MonthExpenses()) == r.summary.totalExpenses
      && Total(r.monthly, MonthSavings()) == r.summary.netCashflow
  {
    var m := MonthlyData(txs);
    var keys := SortStrings(m.keys);
    var incomes, expenses := Column(txs, MonthKeyOf(), Income), Column(txs, MonthKeyOf(), Expense);
    SortStringsFacts(m.keys);
    ColumnsAgree(txs);
    assert forall k :: k in keys ==> k in multiset(m.keys);
    RowsForTotals(keys, m, incomes.values, expenses.values);
    SumOfPermutation(m.keys, keys, incomes.values);
    SumOfPermutation(m.keys, keys, expenses.values);
    ColumnSum(txs, MonthKeyOf(), Income, IsIncome());
    ColumnSum(txs, MonthKeyOf(), Expense, IsExpense());
  }

  /** October is keyed "2024-10" and February "2024-2", so a series holding
      both lists October first. */
  lemma OctoberBeforeFebruary(txs: seq<Tx>, i: int, j: int)
    requires 0 <= i < |MonthlySeries(txs)| && 0 <= j < |MonthlySeries(txs)|
    requires MonthlySeries(txs)[i].month == MonthKey(Date(2024, 9))
    requires MonthlySeries(txs)[j].month == MonthKey(Date(2024, 1))
    ensures i < j
  {
    MonthKeys2024();
    MonthTenBeforeMonthTwo();
    MonthlySeriesOrder(txs);
  }

  /** The key names its month: two months of the calendar share a key only when they are the same month. */
  lemma MonthKeyInjective(d1: Date, d2: Date)
    requires 0 <= d1.monthIndex < 12 && 0 <= d2.monthIndex < 12
    ensures MonthKey(d1) == MonthKey(d2) <==> d1 == d2
  {
    if MonthKey(d1) == MonthKey(d2) {
      KeySplit(IntToString(d1.year), NatToString(d1.monthIndex + 1), IntToString(d2.year), NatToString(d2.monthIndex + 1));
      IntToStringInjective(d1.year, d2.year);
      NatToStringInjective(d1.monthIndex + 1, d2.monthIndex + 1);
    }
  }

  /** The number of decimal digits that end `s`. */
  function DigitTail(s: string): nat
  {
    if s == [] || !('0' <= s[|s| - 1] <= '9') then 0 else 1 + DigitTail(s[..|s| - 1])
  }

  lemma {:induction false} DigitTailOfKey(a: string, b: string)
    requires forall i :: 0 <= i < |b| ==> '0' <= b[i] <= '9'
    ensures DigitTail(a + "-" + b) == |b|
  {
    var s := a + "-" + b;
    if b != [] {
      assert s[..|s| - 1] == a + "-" + b[..|b| - 1];
      DigitTailOfKey(a, b[..|b| - 1]);
    }
  }

  /** A key splits at its last hyphen, since the month part is all digits. */
  lemma KeySplit(a1: string, b1: string, a2: string, b2: string)
    requires forall i :: 0 <= i < |b1| ==> '0' <= b1[i] <= '9'
    requires forall i :: 0 <= i < |b2| ==> '0' <= b2[i] <= '9'
    requires a1 + "-" + b1 == a2 + "-" + b2
    ensures a1 == a2 && b1 == b2
  {
    var s := a1 + "-" + b1;
    DigitTailOfKey(a1, b1);
    DigitTailOfKey(a2, b2);
    assert a1 == s[..|a1|] == a2;
    assert b1 == s[|a1| + 1..] == b2;
  }

  lemma MonthKeys2024()
    ensures MonthKey(Date(2024, 9)) == "2024-10" && MonthKey(Date(2024, 1)) == "2024-2"
  {
    assert NatToString(2024) == "2024" by {
      assert NatToString(2) == "2";
      assert NatToString(20) == "20";
      assert NatToString(202) == "202";
    }
    assert NatToString(10) == "10" by {
      assert NatToString(1) == "1";
    }
  }

  // ---------------------------------------------------------------------
  // Expenses by category

  datatype CategoryRow = CategoryRow(category: CategoryType, amount: real, percentage: real)

  datatype CategoryReport = CategoryReport(totalExpenses: real, categories: seq<CategoryRow>)

  function CategoryRows(entries: seq<(CategoryType, real)>, total: real): (r: seq<CategoryRow>)
    ensures |r| == |entries|
    ensures forall i :: 0 <= i < |r| ==> r[i] == CategoryRow(entries[i].0, entries[i].1, PercentOf(entries[i].1, total))
  {
    if entries == [] then []
    else
      var e := entries[|entries| - 1];
      CategoryRows(entries[..|entries| - 1], total) + [CategoryRow(e.0, e.1, PercentOf(e.1, total))]
  }

  function Amount(): CategoryRow -> real { (r: CategoryRow) => r.amount }
  function Share(): CategoryRow -> real { (r: CategoryRow) => r.percentage }
  /** `sort((a, b) => b.amount - a.amount)`: ascending in the negated amount. */
  function Larger(): CategoryRow -> real { (r: CategoryRow) => -r.amount }

  /** The unsorted rows: one per map entry, in the map's insertion order. */
  function UnsortedCategoryRows(txs: seq<Tx>): seq<CategoryRow>
  {
    var totals := ExpenseTotals(txs);
    CategoryRows(Entries(totals), Sum(totals))
  }

  function ExpensesByCategory(txs: seq<Tx>): (r: CategoryReport)
    ensures r.totalExpenses == SumAmounts(Where(txs, IsExpense()))
    ensures |r.categories| == |ExpenseTotals(txs).keys|
  {
    var totals := ExpenseTotals(txs);
    var rows := UnsortedCategoryRows(txs);
    var sorted := SortBy(rows, Larger());
    ExpenseTotalsSum(txs);
    SortByFacts(rows, Larger());
    assert |sorted| == |multiset(sorted)| == |multiset(rows)| == |rows|;
    CategoryReport(Sum(totals), sorted)
  }

  lemma {:induction false} CategoryRowsTotal(entries: seq<(CategoryType, real)>, total: real)
    ensures Total(CategoryRows(entries, total), Amount()) == Total(entries, Value())
  {
    if entries != [] {
      CategoryRowsTotal(entries[..|entries| - 1], total);
      var rows := CategoryRows(entries, total);
      assert rows[..|rows| - 1] == CategoryRows(entries[..|entries| - 1], total);
    }
  }

  /** The total is the sum of all expense amounts, and the category amounts add up to it. */
  lemma CategoryReportTotals(txs: seq<Tx>)
    ensures ExpensesByCategory(txs).totalExpenses == SumAmounts(Where(txs, IsExpense()))
    ensures Total(ExpensesByCategory(txs).categories, Amount()) == ExpensesByCategory(txs).totalExpenses
  {
    var totals := ExpenseTotals(txs);
    ExpenseTotalsSum(txs);
    SortByTotal(UnsortedCategoryRows(txs), Larger(), Amount());
    CategoryRowsTotal(Entries(totals), Sum(totals));
    EntriesTotal(totals);
  }

  /** Categories come by non-increasing amount; the rows are those of the
      map, rearranged, and rows with equal amounts keep the map's order. */
  lemma CategoryReportOrder(txs: seq<Tx>)
    ensures var rows := ExpensesByCategory(txs).categories;
      forall i, j :: 0 <= i < j < |rows| ==> rows[i].amount >= rows[j].amount
    ensures multiset(ExpensesByCategory(txs).categories) == multiset(UnsortedCategoryRows(txs))
    ensures forall k :: WithKey(ExpensesByCategory(txs).categories, Larger(), k) == WithKey(UnsortedCategoryRows(txs), Larger(), k)
  {
    SortByFacts(UnsortedCategoryRows(txs), Larger());
  }

  /** Every row of the report is an entry of the category map, with its share of the map's sum. */
  lemma CategoryRowsAreEntries(txs: seq<Tx>)
    ensures var totals := ExpenseTotals(txs);
      forall row :: row in ExpensesByCategory(txs).categories ==>
        && row.category in totals.values && row.amount == totals.values[row.category]
        && row.percentage == PercentOf(row.amount, Sum(totals))
  {
    var unsorted := UnsortedCategoryRows(txs);
    SortByFacts(unsorted, Larger());
    forall row | row in ExpensesByCategory(txs).categories ensures row in unsorted {
      assert row in multiset(unsorted);
    }
  }

  /** Each row holds the sum of its category's expenses. */
  lemma CategoryReportAmounts(txs: seq<Tx>)
    ensures var rows := ExpensesByCategory(txs).categories;
      forall i :: 0 <= i < |rows| ==> rows[i].amount == SumAmounts(Where(txs, ExpenseIn(rows[i].category)))
  {
    var rows := ExpensesByCategory(txs).categories;
    CategoryRowsAreEntries(txs);
    forall i | 0 <= i < |rows| ensures rows[i].amount == SumAmounts(Where(txs, ExpenseIn(rows[i].category))) {
      assert rows[i] in rows;
      ExpenseTotalsGet(txs, rows[i].category);
    }
  }

  /** A category has a row exactly when some expense is in it. */
  lemma CategoryReportCoverage(txs: seq<Tx>)
    ensures forall c :: Listed(ExpensesByCategory(txs).categories, c) <==> (exists t :: t in txs && ExpenseIn(c)(t))
  {
    var totals := ExpenseTotals(txs);
    var rows := ExpensesByCategory(txs).categories;
    forall c ensures Listed(rows, c) <==> (exists t :: t in txs && ExpenseIn(c)(t)) {
      ExpenseTotalsKeys(txs, c);
      if Listed(rows, c) {
        var i :| 0 <= i < |rows| && rows[i].category == c;
        CategoryRowsAreEntries(txs);
        assert rows[i] in rows;
      }
      if c in totals.values {
        CategoryListed(txs, c);
      }
    }
  }

  /** Some row of `rows` is for category `c`. */
  predicate Listed(rows: seq<CategoryRow>, c: CategoryType)
  {
    exists i :: 0 <= i < |rows| && rows[i].category == c
  }

  lemma CategoryListed(txs: seq<Tx>, c: CategoryType)
    requires c in ExpenseTotals(txs).values
    ensures Listed(ExpensesByCategory(txs).categories, c)
  {
    var totals := ExpenseTotals(txs);
    var unsorted := UnsortedCategoryRows(txs);
    var rows := ExpensesByCategory(txs).categories;
    SortByFacts(unsorted, Larger());
    var j :| 0 <= j < |totals.keys| && totals.keys[j] == c;
    assert unsorted[j].category == c;
    assert unsorted[j] in multiset(rows);
  }

  /** Without a positive total every percentage is 0; otherwise they add up to 100. */
  lemma CategoryPercentages(txs: seq<Tx>)
    ensures var r := ExpensesByCategory(txs);
      r.totalExpenses <= 0.0 ==> forall i :: 0 <= i < |r.categories| ==> r.categories[i].percentage == 0.0
    ensures var r := ExpensesByCategory(txs);
      r.totalExpenses > 0.0 ==> Total(r.categories, Share()) == 100.0
  {
    var r := ExpensesByCategory(txs);
    CategoryRowsAreEntries(txs);
    assert forall i :: 0 <= i < |r.categories| ==> r.categories[i] in r.categories;
    if r.totalExpenses > 0.0 {
      CategoryReportTotals(txs);
      SharesAddUp(r.categories, Amount(), Share(), r.totalExpenses);
    }
  }

  // ---------------------------------------------------------------------
  // Savings goals and net worth

  datatype GoalRow = GoalRow(name: string, target: real, current: real, progress: Num,
                             status: GoalStatus, deadline: Option<int>)

  function GoalRowOf(g: Goal): GoalRow
    reads g
  {
    GoalRow(g.name, g.targetAmount, g.currentAmount, g.GetProgress(), g.status, g.deadline)
  }

  /** One row per goal, in the order of `goals`. */
  function GoalRows(goals: seq<Goal>): (r: seq<GoalRow>)
    reads goals
    ensures |r| == |goals|
    ensures forall i :: 0 <= i < |r| ==> r[i] == GoalRowOf(goals[i])
  {
    if goals == [] then [] else GoalRows(goals[..|goals| - 1]) + [GoalRowOf(goals[|goals| - 1])]
  }

  function SavingsGoalsReport(user: Finance.User): (r: seq<GoalRow>)
    reads user, user.goals
    ensures |r| == |user.goals|
    ensures forall i :: 0 <= i < |r| ==>
      && r[i].name == user.goals[i].name && r[i].status == user.goals[i].status
      && r[i].current == user.goals[i].currentAmount
      && r[i].progress == Progress(user.goals[i].currentAmount, user.goals[i].targetAmount)
  {
    GoalRows(user.goals)
  }

  datatype AccountRow = AccountRow(name: string, balance: real, percentage: real)

  datatype NetWorth = NetWorth(totalNetWorth: real, accounts: seq<AccountRow>)

  /** One row per component, in order, with its share of `total`. */
  function AccountRows(cs: seq<Component>, total: real, ghost bound: set<AccountGroup>, ghost leaves: set<IndividualAccount>): (r: seq<AccountRow>)
    requires ComponentsValid(cs, bound, leaves)
    reads bound, leaves
    ensures |r| == |cs|
    ensures forall i :: 0 <= i < |r| ==>
      r[i] == AccountRow(Name(cs[i]), BalanceOf(cs[i], bound, leaves), PercentOf(BalanceOf(cs[i], bound, leaves), total))
  {
    if cs == [] then []
    else
      var c := cs[|cs| - 1];
      var b := BalanceOf(c, bound, leaves);
      AccountRows(cs[..|cs| - 1], total, bound, leaves) + [AccountRow(Name(c), b, PercentOf(b, total))]
  }

  function NetWorthReport(user: Finance.User): (r: NetWorth)
    requires user.Valid()
    reads user, user.Groups, user.Leaves
    ensures r.totalNetWorth == user.GetTotalBalance()
    ensures |r.accounts| == |user.accounts|
  {
    var total := user.GetTotalBalance();
    NetWorth(total, AccountRows(user.accounts, total, user.Groups, user.Leaves))
  }

  function Balance(): AccountRow -> real { (r: AccountRow) => r.balance }
  function Portion(): AccountRow -> real { (r: AccountRow) => r.percentage }

  lemma {:induction false} AccountRowsTotal(cs: seq<Component>, total: real, bound: set<AccountGroup>, leaves: set<IndividualAccount>)
    requires ComponentsValid(cs, bound, leaves)
    ensures Total(AccountRows(cs, total, bound, leaves), Balance()) == SumBalances(cs, bound, leaves)
  {
    if cs != [] {
      AccountRowsTotal(cs[..|cs| - 1], total, bound, leaves);
      var rows := AccountRows(cs, total, bound, leaves);
      assert rows[..|rows| - 1] == AccountRows(cs[..|cs| - 1], total, bound, leaves);
    }
  }

  /** The account balances add up to the net worth; every share is 0 when
      the net worth is not positive, and the shares add up to 100 otherwise. */
  lemma NetWorthShares(user: Finance.User)
    requires user.Valid()
    ensures var r := NetWorthReport(user);
      Total(r.accounts, Balance()) == r.totalNetWorth
    ensures var r := NetWorthReport(user);
      r.totalNetWorth <= 0.0 ==> forall i :: 0 <= i < |r.accounts| ==> r.accounts[i].percentage == 0.0
    ensures var r := NetWorthReport(user);
      r.totalNetWorth > 0.0 ==> Total(r.accounts, Portion()) == 100.0
  {
    var r := NetWorthReport(user);
    AccountRowsTotal(user.accounts, r.totalNetWorth, user.Groups, user.Leaves);
    if r.totalNetWorth > 0.0 {
      SharesAddUp(r.accounts, Balance(), Portion(), r.totalNetWorth);
    }
  }
}
