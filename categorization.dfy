/** Keyword-based categorization of transactions: an existing category
    wins, then a description the user trained, then the first keyword of
    the table contained in the description, then a default by kind. */
module Categorization {
  import opened Types
  import opened Strings
  import Ledger

  type Row = (CategoryType, seq<string>)

  /** The keyword table, in the order the ledger consults it. */
  const KeywordTable: seq<Row> := [
    SalaryKeywords,
    BusinessKeywords,
    GiftsKeywords,
    HousingKeywords,
    TransportationKeywords,
    FoodKeywords,
    UtilitiesKeywords,
    HealthcareKeywords,
    EntertainmentKeywords,
    ShoppingKeywords,
    EducationKeywords,
    DiningOutKeywords,
    SubscriptionsKeywords
  ]

  const SalaryKeywords: Row := (Salary, ["salary", "paycheck", "wages", "income", "direct deposit"])
  const BusinessKeywords: Row := (Business, ["client", "invoice", "consulting", "freelance"])
  const GiftsKeywords: Row := (Gifts, ["gift", "present", "donation"])
  const HousingKeywords: Row := (Housing, ["rent", "mortgage", "property", "lease", "apartment"])
  const TransportationKeywords: Row := (Transportation, ["gas", "fuel", "car", "auto", "vehicle", "uber", "lyft", "taxi", "bus", "transit"])
  const FoodKeywords: Row := (Food, ["grocery", "supermarket", "food", "market", "walmart", "target"])
  const UtilitiesKeywords: Row := (Utilities, ["electric", "water", "gas", "internet", "phone", "bill", "utility"])
  const HealthcareKeywords: Row := (Healthcare, ["doctor", "hospital", "medical", "pharmacy", "prescription", "health"])
  const EntertainmentKeywords: Row := (Entertainment, ["movie", "theatre", "netflix", "spotify", "hulu", "disney", "concert", "ticket", "entertainment"])
  const ShoppingKeywords: Row := (Shopping, ["amazon", "store", "mall", "retail", "clothing", "shoes", "shop"])
  const EducationKeywords: Row := (Education, ["tuition", "school", "college", "university", "course", "books", "education", "student"])
  const DiningOutKeywords: Row := (DiningOut, ["restaurant", "cafe", "coffee", "bar", "diner", "starbucks", "mcdonalds", "grubhub", "doordash"])
  const SubscriptionsKeywords: Row := (Subscriptions, ["subscription", "membership", "monthly", "annual"])

  /** Some keyword of `row`, lower-cased, occurs in `description`. */
  predicate RowMatches(description: string, row: Row)
  {
    exists k :: 0 <= k < |row.1| && Includes(description, Lower(row.1[k]))
  }

  /** The category of the first row with a keyword in `description`, if any. */
  function KeywordHit(description: string, rows: seq<Row>): (r: Option<CategoryType>)
    ensures r.None? <==> forall j :: 0 <= j < |rows| ==> !RowMatches(description, rows[j])
    ensures r.Some? ==> exists i :: 0 <= i < |rows| && RowMatches(description, rows[i]) && r.value == rows[i].0 &&
                                    forall j :: 0 <= j < i ==> !RowMatches(description, rows[j])
  {
    if rows == [] then None
    else if RowMatches(description, rows[0]) then Some(rows[0].0)
    else
      var r := KeywordHit(description, rows[1..]);
      assert forall j :: 1 <= j < |rows| ==> rows[j] == rows[1..][j - 1];
      r
  }

  /** The category the ledger gives `tx` with `trained` as the user's
      training and `table` as its keyword table. */
  function Categorized(tx: Tx, trained: map<string, CategoryType>, table: seq<Row>): (r: CategoryType)
    ensures tx.category != Other ==> r == tx.category
    ensures tx.category == Other && Lower(tx.description) in trained ==> r == trained[Lower(tx.description)]
  {
    if tx.category != Other then tx.category
    else if Lower(tx.description) in trained then trained[Lower(tx.description)]
    else match KeywordHit(Lower(tx.description), table)
      case Some(c) => c
      case None => if tx.kind == Income then Salary else Other
  }

  /** Categorizing an already categorized transaction changes nothing. */
  lemma CategorizedIdempotent(tx: Tx, trained: map<string, CategoryType>, table: seq<Row>)
    ensures Categorized(tx.(category := Categorized(tx, trained, table)), trained, table) == Categorized(tx, trained, table)
  {
    if Categorized(tx, trained, table) == Other {
      assert tx.category == Other;
      assert tx.(category := Other) == tx;
    }
  }

  /** A category already set, other than OTHER, is kept whatever the
      description says; a trained description overrides every keyword. */
  lemma Precedence(tx: Tx, trained: map<string, CategoryType>, table: seq<Row>)
    ensures tx.category != Other ==> Categorized(tx, trained, table) == tx.category
    ensures tx.category == Other && Lower(tx.description) in trained ==>
      Categorized(tx, trained, table) == trained[Lower(tx.description)]
    ensures tx.category == Other && Lower(tx.description) !in trained &&
            (forall j :: 0 <= j < |table| ==> !RowMatches(Lower(tx.description), table[j]))
            ==> Categorized(tx, trained, table) == (if tx.kind == Income then Salary else Other)
  {
  }

  /** "gas" is a keyword of both transportation and utilities; transportation
      comes first in the table and wins, whatever the letter case. */
  lemma GasIsTransportation(tx: Tx)
    requires tx.category == Other && tx.description == "Gas"
    ensures Categorized(tx, map[], KeywordTable) == Transportation
  {
    assert Lower(tx.description) == "gas";
    GasHit();
  }

  lemma GasHit()
    ensures KeywordHit("gas", KeywordTable) == Some(Transportation)
  {
    assert KeywordTable[4] == TransportationKeywords;
    GasInBothRows();
    GasMissesEarlierRows();
    FirstHit("gas", KeywordTable, 4);
  }

  lemma GasInBothRows()
    ensures RowMatches("gas", TransportationKeywords) && RowMatches("gas", UtilitiesKeywords)
  {
    assert Lower(TransportationKeywords.1[0]) == "gas";
    assert OccursAt("gas", Lower(TransportationKeywords.1[0]), 0);
    assert Lower(UtilitiesKeywords.1[2]) == "gas";
    assert OccursAt("gas", Lower(UtilitiesKeywords.1[2]), 0);
  }

  lemma GasMissesEarlierRows()
    ensures forall j :: 0 <= j < 4 ==> !RowMatches("gas", KeywordTable[j])
  {
    LongKeywordsMiss("gas", SalaryKeywords);
    LongKeywordsMiss("gas", BusinessKeywords);
    LongKeywordsMiss("gas", GiftsKeywords);
    LongKeywordsMiss("gas", HousingKeywords);
  }

  /** A keyword longer than the description cannot occur in it. */
  lemma LongKeywordsMiss(description: string, row: Row)
    requires forall k :: 0 <= k < |row.1| ==> |row.1[k]| > |description|
    ensures !RowMatches(description, row)
  {
  }

  /** Whether `t`'s description and `query`'s, lower-cased, contain one another. */
  function SimilarTo(query: Tx): Tx -> bool
  {
    (t: Tx) => Includes(Lower(t.description), Lower(query.description)) ||
               Includes(Lower(query.description), Lower(t.description))
  }

  /** The transactions similar to `query`, in their original order. */
  function SimilarTransactions(query: Tx, all: seq<Tx>): (r: seq<Tx>)
    ensures |r| <= |all|
    ensures forall t :: t in r ==> t in all && SimilarTo(query)(t)
    ensures forall t :: t in all && SimilarTo(query)(t) ==> t in r
  {
    WhereKeeps(all, SimilarTo(query));
    Where(all, SimilarTo(query))
  }

  lemma {:induction false} WhereKeeps(txs: seq<Tx>, keep: Tx -> bool)
    ensures forall t :: t in txs && keep(t) ==> t in Where(txs, keep)
  {
    if txs != [] {
      var init, last := txs[..|txs| - 1], txs[|txs| - 1];
      assert txs == init + [last];
      WhereKeeps(init, keep);
    }
  }

  /** The search works transaction by transaction: a single transaction is found exactly
      when it is similar, and a concatenation is searched part by part, so the results
      keep the input order and its repetitions. */
  lemma SimilarTransactionsAppend(query: Tx, xs: seq<Tx>, ys: seq<Tx>)
    ensures SimilarTransactions(query, xs + ys) == SimilarTransactions(query, xs) + SimilarTransactions(query, ys)
  {
    WhereAppend(xs, ys, SimilarTo(query));
  }

  lemma SimilarTransactionsSingle(query: Tx, t: Tx)
    ensures SimilarTransactions(query, [t]) == if SimilarTo(query)(t) then [t] else []
  {
    WhereSingle(t, SimilarTo(query));
  }

  /** A description contains itself, so a transaction is always among those similar to it. */
  lemma SimilarToItself(query: Tx, all: seq<Tx>)
    requires query in all
    ensures query in SimilarTransactions(query, all)
  {
    var d := Lower(query.description);
    assert OccursAt(d, d, 0);
  }

  /** The categorizer: the keyword table and the descriptions the user trained. */
  class CategorizationService {
    const keywords: seq<Row>
    var trained: map<string, CategoryType>

    constructor ()
      ensures keywords == KeywordTable && trained == map[]
    {
      keywords := KeywordTable;
      trained := map[];
    }

    /** The category for `tx`, by the precedence above: the table is scanned
        row by row and keyword by keyword, stopping at the first hit. */
    method CategorizeTransaction(tx: Tx) returns (c: CategoryType)
      ensures c == Categorized(tx, trained, keywords)
    {
      if tx.category != Other {
        return tx.category;
      }
      var description := Lower(tx.description);
      if description in trained {
        return trained[description];
      }
      var hit := ScanTable(description, keywords);
      if hit.Some? {
        return hit.value;
      }
      if tx.kind == Income {
        return Salary;
      }
      return Other;
    }

    /** `trainCategory`: remember the lower-cased description. */
    method TrainCategory(transactionDescription: string, category: CategoryType)
      modifies this
      ensures trained == old(trained)[Lower(transactionDescription) := category]
    {
      trained := trained[Lower(transactionDescription) := category];
    }

    /** The callback applied to each transaction: one still in OTHER gets
        the computed category written into it. */
    method CategorizeInPlace(t: Ledger.Transaction)
      modifies t
      ensures t.category == Categorized(old(t.Snapshot()), trained, keywords)
      ensures t.tags == old(t.tags)
    {
      if t.category == Other {
        var c := CategorizeTransaction(t.Snapshot());
        t.category := c;
      }
    }

    /** Rewrites in place the category of every transaction still in OTHER,
        and returns the same list. A transaction listed twice ends up as if
        listed once, since categorizing is idempotent. */
    method BulkCategorize(transactions: seq<Ledger.Transaction>) returns (r: seq<Ledger.Transaction>)
      modifies set t | t in transactions
      ensures r == transactions
      ensures forall i :: 0 <= i < |transactions| ==>
        transactions[i].category == Categorized(old(transactions[i].Snapshot()), trained, keywords)
      ensures forall i :: 0 <= i < |transactions| ==> transactions[i].tags == old(transactions[i].tags)
    {
      ghost var done: set<Ledger.Transaction> := {};
      for i := 0 to |transactions|
        invariant done == set k | 0 <= k < i :: transactions[k]
        invariant forall j :: 0 <= j < |transactions| && transactions[j] in done ==>
          transactions[j].category == Categorized(old(transactions[j].Snapshot()), trained, keywords)
        invariant forall j :: 0 <= j < |transactions| && transactions[j] !in done ==>
          transactions[j].category == old(transactions[j].category)
        invariant forall j :: 0 <= j < |transactions| ==> transactions[j].tags == old(transactions[j].tags)
      {
        var t := transactions[i];
        ghost var before := old(t.Snapshot());
        assert t.Snapshot() == before || t.Snapshot() == before.(category := Categorized(before, trained, keywords)) by {
          if t in done {
            var j :| 0 <= j < i && transactions[j] == t;
          }
        }
        CategorizedIdempotent(before, trained, keywords);
        CategorizeInPlace(t);
        done := done + {t};
        assert done == set k | 0 <= k < i + 1 :: transactions[k] by {
          forall x | x in done ensures exists k :: 0 <= k < i + 1 && transactions[k] == x {
            if x == t {
              assert transactions[i] == x;
            }
          }
        }
      }
      r := transactions;
    }
  }

  /** The nested scan of the table: rows in order, keywords in order,
      stopping at the first keyword the description contains. */
  method ScanTable(description: string, rows: seq<Row>) returns (hit: Option<CategoryType>)
    ensures hit == KeywordHit(description, rows)
  {
    for i := 0 to |rows|
      invariant forall j :: 0 <= j < i ==> !RowMatches(description, rows[j])
    {
      var category := rows[i].0;
      var keywords := rows[i].1;
      for k := 0 to |keywords|
        invariant forall m :: 0 <= m < k ==> !Includes(description, Lower(keywords[m]))
      {
        if Includes(description, Lower(keywords[k])) {
          assert RowMatches(description, rows[i]);
          FirstHit(description, rows, i);
          return Some(category);
        }
      }
    }
    return None;
  }

  /** A row that matches after only non-matching rows is the one the table yields. */
  lemma FirstHit(description: string, rows: seq<Row>, i: int)
    requires 0 <= i < |rows| && RowMatches(description, rows[i])
    requires forall j :: 0 <= j < i ==> !RowMatches(description, rows[j])
    ensures KeywordHit(description, rows) == Some(rows[i].0)
  {
    var r := KeywordHit(description, rows);
    var i' :| 0 <= i' < |rows| && RowMatches(description, rows[i']) && r.value == rows[i'].0 &&
              forall j :: 0 <= j < i' ==> !RowMatches(description, rows[j]);
    assert i' == i;
  }
}
