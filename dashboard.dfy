/**
 * The chart data of the dashboard view: per-category totals (a map, since
 * JavaScript lists integer-like keys in ascending order, not by insertion)
 * and per-month income/expense buckets in first-appearance order of the
 * month label. The month label of a date-time (`toLocaleString` with a short
 * month) is supplied as the parameter `monthOf`.
 */
module Dashboard {
  import opened Records
  import opened Grouping

  // ---------------------------------------------------------------------
  // Category grouping
  // ---------------------------------------------------------------------

  /** The sum of the amounts of the transactions in category `c`, whatever their type. */
  function CategoryAmount(txs: seq<Transaction>, c: int): int
  {
    if txs == [] then 0
    else CategoryAmount(txs[..|txs| - 1], c) + (if txs[|txs| - 1].categoryId == c then txs[|txs| - 1].amount else 0)
  }

  /** The category reduce: each transaction's amount is added to its category's entry. */
  function CategoryFold(txs: seq<Transaction>): map<int, int>
  {
    if txs == [] then map[]
    else
      var m := CategoryFold(txs[..|txs| - 1]);
      var t := txs[|txs| - 1];
      m[t.categoryId := (if t.categoryId in m then m[t.categoryId] else 0) + t.amount]
  }

  /** The category totals have one entry per distinct category id of the input, holding the
      sum of that category's amounts, INCOME and EXPENSE alike; an absent id has nothing. */
  lemma {:induction false} CategoryFoldMeaning(txs: seq<Transaction>)
    ensures CategoryFold(txs).Keys == set t | t in txs :: t.categoryId
    ensures forall c :: CategoryAmount(txs, c) == if c in CategoryFold(txs) then CategoryFold(txs)[c] else 0
  {
    if txs != [] {
      var p := txs[..|txs| - 1];
      CategoryFoldMeaning(p);
      assert forall x :: x in txs <==> x in p || x == txs[|txs| - 1];
    }
  }

  /** The sum of all values of a map. */
  ghost function SumOfValues(m: map<int, int>): int
    decreases |m|
  {
    if |m| == 0 then 0
    else
      var k := PickKey(m);
      m[k] + SumOfValues(m - {k})
  }

  /** The key the sum takes out first, one fixed choice per map. */
  ghost function PickKey(m: map<int, int>): (k: int)
    requires |m| != 0
    ensures k in m
  {
    NonEmptyHasKey(m);
    var k :| k in m;
    k
  }

  lemma NonEmptyHasKey(m: map<int, int>)
    requires |m| != 0
    ensures exists k :: k in m
  {
    if forall k :: k !in m {
      assert false;
    }
  }

  lemma {:induction false} SumOfValuesRemove(m: map<int, int>, k: int)
    requires k in m
    ensures SumOfValues(m) == m[k] + SumOfValues(m - {k})
    decreases |m|
  {
    var j := PickKey(m);
    if j != k {
      var mj, mk := m - {j}, m - {k};
      assert mj.Keys == m.Keys - {j} && mk.Keys == m.Keys - {k};
      assert k in mj && j in mk;
      SumOfValuesRemove(mj, k);
      SumOfValuesRemove(mk, j);
      assert mj - {k} == mk - {j};
    }
  }

  lemma SumOfValuesUpdate(m: map<int, int>, k: int, v: int)
    ensures SumOfValues(m[k := v]) == SumOfValues(m) - (if k in m then m[k] else 0) + v
  {
    SumOfValuesRemove(m[k := v], k);
    assert m[k := v] - {k} == m - {k};
    if k in m {
      SumOfValuesRemove(m, k);
    } else {
      assert m - {k} == m;
    }
  }

  /** The category totals add up to the sum of all amounts. */
  lemma {:induction false} CategoryTotalsSum(txs: seq<Transaction>)
    ensures SumOfValues(CategoryFold(txs)) == TotalAmount(txs)
  {
    if txs != [] {
      var t := txs[|txs| - 1];
      CategoryTotalsSum(txs[..|txs| - 1]);
      var m := CategoryFold(txs[..|txs| - 1]);
      SumOfValuesUpdate(m, t.categoryId, (if t.categoryId in m then m[t.categoryId] else 0) + t.amount);
    }
  }

  // ---------------------------------------------------------------------
  // Monthly grouping
  // ---------------------------------------------------------------------

  /** A transaction's month bucket: the label of its date-time. */
  function MonthKey(monthOf: string -> string): Transaction -> string
  {
    (t: Transaction) => monthOf(t.dateTime)
  }

  /** INCOME goes to income; every other type, not only EXPENSE, goes to expense. */
  function MonthlySplit(t: Transaction): Totals
  {
    if t.kind == INCOME then Totals(t.amount, 0) else Totals(0, t.amount)
  }

  function MonthlySummary(txs: seq<Transaction>, monthOf: string -> string): seq<Bucket>
  {
    Summary(txs, MonthKey(monthOf), MonthlySplit)
  }

  /** The INCOME amounts labelled `month`. */
  function MonthIncome(txs: seq<Transaction>, monthOf: string -> string, month: string): int
  {
    if txs == [] then 0
    else
      var t := txs[|txs| - 1];
      MonthIncome(txs[..|txs| - 1], monthOf, month) + (if monthOf(t.dateTime) == month && t.kind == INCOME then t.amount else 0)
  }

  /** The amounts of every non-INCOME transaction labelled `month`. */
  function MonthExpense(txs: seq<Transaction>, monthOf: string -> string, month: string): int
  {
    if txs == [] then 0
    else
      var t := txs[|txs| - 1];
      MonthExpense(txs[..|txs| - 1], monthOf, month) + (if monthOf(t.dateTime) == month && t.kind != INCOME then t.amount else 0)
  }

  lemma {:induction false} MonthKeyTotals(txs: seq<Transaction>, monthOf: string -> string, month: string)
    ensures KeyTotals(txs, MonthKey(monthOf), MonthlySplit, month)
         == Totals(MonthIncome(txs, monthOf, month), MonthExpense(txs, monthOf, month))
  {
    if txs != [] {
      MonthKeyTotals(txs[..|txs| - 1], monthOf, month);
    }
  }

  lemma {:induction false} MonthlySplitTotals(txs: seq<Transaction>)
    ensures SplitTotals(txs, MonthlySplit).income == IncomeTotal(txs)
    ensures SplitTotals(txs, MonthlySplit).income + SplitTotals(txs, MonthlySplit).expense == TotalAmount(txs)
  {
    if txs != [] {
      MonthlySplitTotals(txs[..|txs| - 1]);
    }
  }

  /** The monthly buckets: one per distinct label, in first-appearance order; each holds
      the INCOME amounts and the non-INCOME amounts of its month; together they hold
      every amount exactly once. */
  lemma MonthlyBuckets(txs: seq<Transaction>, monthOf: string -> string)
    ensures var s := MonthlySummary(txs, monthOf);
      && FirstAppearanceOrder(KeysOf(txs, MonthKey(monthOf)), BucketKeys(s))
      && (forall i :: 0 <= i < |s| ==>
            s[i].income == MonthIncome(txs, monthOf, s[i].key) && s[i].expense == MonthExpense(txs, monthOf, s[i].key))
      && BucketTotals(s).income == IncomeTotal(txs)
      && BucketTotals(s).income + BucketTotals(s).expense == TotalAmount(txs)
  {
    var s := MonthlySummary(txs, monthOf);
    SummarySpec(txs, MonthKey(monthOf), MonthlySplit);
    forall i | 0 <= i < |s|
      ensures s[i].income == MonthIncome(txs, monthOf, s[i].key) && s[i].expense == MonthExpense(txs, monthOf, s[i].key)
    {
      MonthKeyTotals(txs, monthOf, s[i].key);
    }
    MonthlySplitTotals(txs);
  }

  /** The category reduce as a loop: `if (!acc[category]) acc[category] = 0;` then the
      amount is added in place. */
  method GroupByCategory(txs: seq<Transaction>) returns (categoryData: map<int, int>)
    ensures categoryData == CategoryFold(txs)
  {
    categoryData := map[];
    for i := 0 to |txs|
      invariant categoryData == CategoryFold(txs[..i])
    {
      assert txs[..i + 1][..i] == txs[..i];
      var category := txs[i].categoryId;
      if category !in categoryData || categoryData[category] == 0 {
        categoryData := categoryData[category := 0];
      }
      categoryData := categoryData[category := categoryData[category] + txs[i].amount];
    }
    assert txs[..|txs|] == txs;
  }

  /** `processChartData`: the category totals and the monthly buckets of one list. */
  method ProcessChartData(txs: seq<Transaction>, monthOf: string -> string)
    returns (categoryData: map<int, int>, monthlyData: seq<Bucket>)
    ensures categoryData == CategoryFold(txs)
    ensures categoryData.Keys == set t | t in txs :: t.categoryId
    ensures SumOfValues(categoryData) == TotalAmount(txs)
    ensures monthlyData == MonthlySummary(txs, monthOf)
    ensures BucketTotals(monthlyData).income + BucketTotals(monthlyData).expense == TotalAmount(txs)
  {
    categoryData := GroupByCategory(txs);
    CategoryFoldMeaning(txs);
    CategoryTotalsSum(txs);
    monthlyData := Group(txs, MonthKey(monthOf), MonthlySplit);
    MonthlyBuckets(txs, monthOf);
  }
}
