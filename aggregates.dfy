/** The per-category expense totals that budgeting mode, the recommendation
    engine and the reporting service all build the same way: walk the
    transactions in order and add each expense to its category's entry. */
module Aggregates {
  import opened Types
  import opened OrderedMaps

  /** An expense, of any category. */
  function IsExpense(): Tx -> bool
  {
    (t: Tx) => t.kind == Expense
  }

  /** An income, of any category. */
  function IsIncome(): Tx -> bool
  {
    (t: Tx) => t.kind == Income
  }

  /** An expense in category `c`. */
  function ExpenseIn(c: CategoryType): Tx -> bool
  {
    (t: Tx) => t.kind == Expense && t.category == c
  }

  /** A transaction of any kind in category `c`. */
  function InCategory(c: CategoryType): Tx -> bool
  {
    (t: Tx) => t.category == c
  }

  /** The map of expense totals per category, keys in order of each category's first expense. */
  function ExpenseTotals(txs: seq<Tx>): (m: OrderedMap<CategoryType, real>)
    ensures Valid(m)
  {
    if txs == [] then Empty()
    else
      var m := ExpenseTotals(txs[..|txs| - 1]);
      var t := txs[|txs| - 1];
      if t.kind == Expense then AddTo(m, t.category, t.amount) else m
  }

  /** Each category's entry is the sum of its expenses. */
  lemma {:induction false} ExpenseTotalsGet(txs: seq<Tx>, c: CategoryType)
    ensures Get(ExpenseTotals(txs), c, 0.0) == SumAmounts(Where(txs, ExpenseIn(c)))
  {
    if txs != [] {
      var init, last := txs[..|txs| - 1], txs[|txs| - 1];
      assert txs == init + [last];
      ExpenseTotalsGet(init, c);
      ExpenseTotalsStep(txs, c);
      SumWhereSnoc(init, last, ExpenseIn(c));
    }
  }

  /** One more transaction changes only its own category's entry, and only if it is an expense. */
  lemma ExpenseTotalsStep(txs: seq<Tx>, c: CategoryType)
    requires txs != []
    ensures var last := txs[|txs| - 1];
            Get(ExpenseTotals(txs), c, 0.0)
            == Get(ExpenseTotals(txs[..|txs| - 1]), c, 0.0) + if ExpenseIn(c)(last) then last.amount else 0.0
  {
  }

  /** The map holds exactly the categories that saw an expense. */
  lemma {:induction false} ExpenseTotalsKeys(txs: seq<Tx>, c: CategoryType)
    ensures c in ExpenseTotals(txs).values <==> exists t :: t in txs && ExpenseIn(c)(t)
  {
    if txs != [] {
      var init, last := txs[..|txs| - 1], txs[|txs| - 1];
      assert txs == init + [last];
      ExpenseTotalsKeys(init, c);
      if c in ExpenseTotals(txs).values && !(exists t :: t in init && ExpenseIn(c)(t)) {
        assert ExpenseIn(c)(last);
      }
    }
  }

  /** All entries together add up to the sum of all expenses. */
  lemma {:induction false} ExpenseTotalsSum(txs: seq<Tx>)
    ensures Sum(ExpenseTotals(txs)) == SumAmounts(Where(txs, IsExpense()))
  {
    if txs != [] {
      var init, last := txs[..|txs| - 1], txs[|txs| - 1];
      assert txs == init + [last];
      ExpenseTotalsSum(init);
      WhereSnoc(init, last, IsExpense());
      SumAmountsSnoc(Where(init, IsExpense()), last);
      if last.kind == Expense {
        AddToSum(ExpenseTotals(init), last.category, last.amount);
      }
    }
  }

  /** The three facts above, for every category at once. */
  lemma ExpenseTotalsFacts(txs: seq<Tx>)
    ensures forall c :: Get(ExpenseTotals(txs), c, 0.0) == SumAmounts(Where(txs, ExpenseIn(c)))
    ensures forall c :: c in ExpenseTotals(txs).values <==> exists t :: t in txs && ExpenseIn(c)(t)
    ensures Sum(ExpenseTotals(txs)) == SumAmounts(Where(txs, IsExpense()))
  {
    forall c ensures Get(ExpenseTotals(txs), c, 0.0) == SumAmounts(Where(txs, ExpenseIn(c))) {
      ExpenseTotalsGet(txs, c);
    }
    forall c ensures c in ExpenseTotals(txs).values <==> exists t :: t in txs && ExpenseIn(c)(t) {
      ExpenseTotalsKeys(txs, c);
    }
    ExpenseTotalsSum(txs);
  }

  /** The sum of the kept amounts, one transaction at a time. */
  lemma SumWhereSnoc(txs: seq<Tx>, t: Tx, keep: Tx -> bool)
    ensures SumAmounts(Where(txs + [t], keep)) == SumAmounts(Where(txs, keep)) + (if keep(t) then t.amount else 0.0)
  {
    WhereSnoc(txs, t, keep);
    SumAmountsSnoc(Where(txs, keep), t);
  }

  /** A sum of amounts none of which is negative is not negative. */
  lemma {:induction false} SumAmountsNonNegative(txs: seq<Tx>)
    requires forall t :: t in txs ==> t.amount >= 0.0
    ensures SumAmounts(txs) >= 0.0
  {
    if txs != [] {
      SumAmountsNonNegative(txs[..|txs| - 1]);
    }
  }

  /** With no negative expense, no category total is negative. */
  lemma ExpenseTotalsNonNegative(txs: seq<Tx>)
    requires forall t :: t in txs && t.kind == Expense ==> t.amount >= 0.0
    ensures forall c :: c in ExpenseTotals(txs).values ==> ExpenseTotals(txs).values[c] >= 0.0
  {
    ExpenseTotalsFacts(txs);
    forall c | c in ExpenseTotals(txs).values ensures ExpenseTotals(txs).values[c] >= 0.0 {
      SumAmountsNonNegative(Where(txs, ExpenseIn(c)));
    }
  }
}
