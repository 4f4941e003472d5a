/**
 * The report view's transform: transactions grouped per calendar date
 * (`YYYY-MM-DD`, the part of `dateTime` before the first 'T') in
 * first-appearance order, and the running balance over those days.
 */
module Reports {
  import opened Records
  import opened Grouping
  import JsText

  /** `transaction.dateTime.split("T")[0]`. */
  function DateKey(t: Transaction): (r: string)
    ensures |r| <= |t.dateTime| && r == t.dateTime[..|r|] && 'T' !in r
    ensures |r| == |t.dateTime| || t.dateTime[|r|] == 'T'
  {
    JsText.BeforeFirst(t.dateTime, 'T')
  }

  /** INCOME goes to income, EXPENSE to expense, any other type to neither. */
  function DailySplit(t: Transaction): Totals
  {
    if t.kind == INCOME then Totals(t.amount, 0)
    else if t.kind == EXPENSE then Totals(0, t.amount)
    else Totals(0, 0)
  }

  function DailySummary(txs: seq<Transaction>): seq<Bucket>
  {
    Summary(txs, DateKey, DailySplit)
  }

  /** The INCOME amounts dated `date`. */
  function DayIncome(txs: seq<Transaction>, date: string): int
  {
    if txs == [] then 0
    else
      var t := txs[|txs| - 1];
      DayIncome(txs[..|txs| - 1], date) + (if DateKey(t) == date && t.kind == INCOME then t.amount else 0)
  }

  /** The EXPENSE amounts dated `date`. */
  function DayExpense(txs: seq<Transaction>, date: string): int
  {
    if txs == [] then 0
    else
      var t := txs[|txs| - 1];
      DayExpense(txs[..|txs| - 1], date) + (if DateKey(t) == date && t.kind == EXPENSE then t.amount else 0)
  }

  lemma {:induction false} DayKeyTotals(txs: seq<Transaction>, date: string)
    ensures KeyTotals(txs, DateKey, DailySplit, date) == Totals(DayIncome(txs, date), DayExpense(txs, date))
  {
    if txs != [] {
      DayKeyTotals(txs[..|txs| - 1], date);
    }
  }

  /** What one transaction adds: its amount to income when it is INCOME, to expense when
      it is EXPENSE; the two type names differ, so never to both. */
  lemma DailySplitOne(t: Transaction)
    ensures DailySplit(t) == Totals(if t.kind == INCOME then t.amount else 0, if t.kind == EXPENSE then t.amount else 0)
  {
  }

  lemma {:induction false} DailySplitTotals(txs: seq<Transaction>)
    ensures SplitTotals(txs, DailySplit) == Totals(IncomeTotal(txs), ExpenseTotal(txs))
  {
    if txs != [] {
      var p, t := txs[..|txs| - 1], txs[|txs| - 1];
      DailySplitTotals(p);
      DailySplitOne(t);
      assert SplitTotals(txs, DailySplit) == Plus(SplitTotals(p, DailySplit), DailySplit(t));
    }
  }

  /** The daily summary: one bucket per distinct date key, in first-appearance order (a
      transaction of any type creates its day's bucket); each holds its day's INCOME and
      EXPENSE amounts; together they hold all INCOME and all EXPENSE amounts. */
  lemma DailyBuckets(txs: seq<Transaction>)
    ensures var s := DailySummary(txs);
      && FirstAppearanceOrder(KeysOf(txs, DateKey), BucketKeys(s))
      && (forall i :: 0 <= i < |s| ==> s[i].income == DayIncome(txs, s[i].key) && s[i].expense == DayExpense(txs, s[i].key))
      && BucketTotals(s) == Totals(IncomeTotal(txs), ExpenseTotal(txs))
      && (|s| == 0 <==> |txs| == 0)
  {
    var s := DailySummary(txs);
    SummarySpec(txs, DateKey, DailySplit);
    forall i | 0 <= i < |s|
      ensures s[i].income == DayIncome(txs, s[i].key) && s[i].expense == DayExpense(txs, s[i].key)
    {
      DayKeyTotals(txs, s[i].key);
    }
    DailySplitTotals(txs);
    if |txs| != 0 {
      assert KeysOf(txs, DateKey)[0] in BucketKeys(s);
    }
  }

  // ---------------------------------------------------------------------
  // Balance trend
  // ---------------------------------------------------------------------

  /** One point of `balanceHistory`. */
  datatype Point = Point(date: string, balance: int)

  /** Income minus expense over a run of buckets. */
  function Net(bs: seq<Bucket>): int
  {
    if bs == [] then 0 else Net(bs[..|bs| - 1]) + bs[|bs| - 1].income - bs[|bs| - 1].expense
  }

  lemma {:induction false} NetIsTotals(bs: seq<Bucket>)
    ensures Net(bs) == BucketTotals(bs).income - BucketTotals(bs).expense
  {
    if bs != [] {
      NetIsTotals(bs[..|bs| - 1]);
    }
  }

  /** The `map` over the summary with a running `balance`: one point per bucket, same dates
      in the same order, each balance the net of all buckets up to and including it. */
  method BalanceHistory(summary: seq<Bucket>) returns (history: seq<Point>)
    ensures |history| == |summary|
    ensures forall i :: 0 <= i < |history| ==>
      history[i].date == summary[i].key && history[i].balance == Net(summary[..i + 1])
    ensures |history| > 0 ==> history[0].balance == summary[0].income - summary[0].expense
    ensures forall i :: 0 < i < |history| ==>
      history[i].balance == history[i - 1].balance + summary[i].income - summary[i].expense
  {
    var balance := 0;
    history := [];
    for i := 0 to |summary|
      invariant |history| == i && balance == Net(summary[..i])
      invariant forall j :: 0 <= j < i ==> history[j] == Point(summary[j].key, Net(summary[..j + 1]))
    {
      assert summary[..i + 1][..i] == summary[..i];
      balance := balance + summary[i].income - summary[i].expense;
      history := history + [Point(summary[i].key, balance)];
    }
    forall i | 0 < i < |history|
      ensures history[i].balance == history[i - 1].balance + summary[i].income - summary[i].expense
    {
      assert summary[..i + 1][..i] == summary[..i];
    }
  }

  /** The transform inside `generateReport`. Each point's balance is the net of the days up
      to and including it, and the last balance is the total INCOME minus the total EXPENSE
      of the whole input. */
  method GenerateReport(txs: seq<Transaction>) returns (summary: seq<Bucket>, history: seq<Point>)
    ensures summary == DailySummary(txs)
    ensures |history| == |summary| && (|summary| == 0 <==> |txs| == 0)
    ensures forall i :: 0 <= i < |history| ==>
      history[i].date == summary[i].key && history[i].balance == Net(summary[..i + 1])
    ensures |history| > 0 ==> history[0].balance == summary[0].income - summary[0].expense
    ensures forall i :: 0 < i < |history| ==>
      history[i].balance == history[i - 1].balance + summary[i].income - summary[i].expense
    ensures |history| > 0 ==> history[|history| - 1].balance == IncomeTotal(txs) - ExpenseTotal(txs)
  {
    summary := Group(txs, DateKey, DailySplit);
    history := BalanceHistory(summary);
    DailyBuckets(txs);
    NetIsTotals(summary);
    assert summary[..|summary|] == summary;
  }
}
