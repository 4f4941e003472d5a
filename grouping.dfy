/**
 * Grouping transactions into buckets held by a plain JavaScript object whose
 * keys are non-index strings (month labels, `YYYY-MM-DD` dates). Such an
 * object lists its properties in the order they were first created, so
 * `Object.entries` / `Object.values` give the buckets in first-appearance
 * order of their key. The object is modelled as a map together with the
 * order in which its keys were created; a key naming a member the object
 * inherits (`toString`, `constructor`, ...) is outside the model.
 */
module Grouping {
  import opened Records

  /** The `{ income, expense }` accumulated for one key. */
  datatype Totals = Totals(income: int, expense: int)

  function Plus(a: Totals, b: Totals): Totals
  {
    Totals(a.income + b.income, a.expense + b.expense)
  }

  /** One entry of the grouped result: its key and its two totals. */
  datatype Bucket = Bucket(key: string, income: int, expense: int)

  /** The accumulator object: its properties and their creation order. */
  datatype Acc = Acc(totals: map<string, Totals>, order: seq<string>)

  predicate NoDuplicates(s: seq<string>)
  {
    forall i, j :: 0 <= i < j < |s| ==> s[i] != s[j]
  }

  /** The creation order lists every property of the object exactly once. */
  ghost predicate WellFormed(acc: Acc)
  {
    NoDuplicates(acc.order) && forall k :: k in acc.order <==> k in acc.totals
  }

  /** One step of the reduce: create the bucket at `{ income: 0, expense: 0 }` on first
      sight of `key`, then add `delta` to it. */
  function Add(acc: Acc, key: string, delta: Totals): (r: Acc)
    ensures key in r.totals && r.totals.Keys == acc.totals.Keys + {key}
  {
    if key in acc.totals then Acc(acc.totals[key := Plus(acc.totals[key], delta)], acc.order)
    else Acc(acc.totals[key := Plus(Totals(0, 0), delta)], acc.order + [key])
  }

  /** A reduce step keeps every property listed once in the creation order. */
  lemma AddWellFormed(acc: Acc, key: string, delta: Totals)
    requires WellFormed(acc)
    ensures WellFormed(Add(acc, key, delta))
  {
  }

  /** The reduce over `txs`, starting from the empty object `{}`. `keyOf` picks a
      transaction's bucket, `split` what it adds to that bucket's income and expense. */
  function Fold(txs: seq<Transaction>, keyOf: Transaction -> string, split: Transaction -> Totals): Acc
  {
    if txs == [] then Acc(map[], [])
    else Add(Fold(txs[..|txs| - 1], keyOf, split), keyOf(txs[|txs| - 1]), split(txs[|txs| - 1]))
  }

  /** Starting from `{}`, the reduce leaves every property listed once in creation order. */
  lemma {:induction false} FoldWellFormed(txs: seq<Transaction>, keyOf: Transaction -> string, split: Transaction -> Totals)
    ensures WellFormed(Fold(txs, keyOf, split))
  {
    if txs != [] {
      var p, t := txs[..|txs| - 1], txs[|txs| - 1];
      FoldWellFormed(p, keyOf, split);
      AddWellFormed(Fold(p, keyOf, split), keyOf(t), split(t));
    }
  }

  /** `Object.entries(acc)` projected to buckets, in creation order. */
  function Entries(acc: Acc): (r: seq<Bucket>)
    requires forall k :: k in acc.order ==> k in acc.totals
    ensures |r| == |acc.order|
  {
    seq(|acc.order|, i requires 0 <= i < |acc.order| =>
      Bucket(acc.order[i], acc.totals[acc.order[i]].income, acc.totals[acc.order[i]].expense))
  }

  /** The grouped result of `txs`. */
  function Summary(txs: seq<Transaction>, keyOf: Transaction -> string, split: Transaction -> Totals): seq<Bucket>
  {
    FoldWellFormed(txs, keyOf, split);
    Entries(Fold(txs, keyOf, split))
  }

  // ---------------------------------------------------------------------
  // Reference definitions the grouping is proved against
  // ---------------------------------------------------------------------

  /** The key of every transaction, in input order. */
  function KeysOf(txs: seq<Transaction>, keyOf: Transaction -> string): (r: seq<string>)
    ensures |r| == |txs|
  {
    seq(|txs|, i requires 0 <= i < |txs| => keyOf(txs[i]))
  }

  function BucketKeys(bs: seq<Bucket>): (r: seq<string>)
    ensures |r| == |bs|
  {
    seq(|bs|, i requires 0 <= i < |bs| => bs[i].key)
  }

  /** The position of the first `x` in `s`, or `|s|` when there is none. */
  function FirstIndex(s: seq<string>, x: string): (i: nat)
    ensures i <= |s|
    ensures i < |s| <==> x in s
    ensures i < |s| ==> s[i] == x
    ensures forall j :: 0 <= j < i ==> s[j] != x
  {
    if s == [] then 0 else if s[0] == x then 0 else 1 + FirstIndex(s[1..], x)
  }

  /** `order` holds each key of `keys` once, ordered by where that key first occurs in `keys`. */
  ghost predicate FirstAppearanceOrder(keys: seq<string>, order: seq<string>)
  {
    && NoDuplicates(order)
    && (forall k :: k in order <==> k in keys)
    && forall i, j :: 0 <= i < j < |order| ==> FirstIndex(keys, order[i]) < FirstIndex(keys, order[j])
  }

  /** What the transactions with key `key` add up to. */
  function KeyTotals(txs: seq<Transaction>, keyOf: Transaction -> string, split: Transaction -> Totals, key: string): Totals
  {
    if txs == [] then Totals(0, 0)
    else
      var t := txs[|txs| - 1];
      Plus(KeyTotals(txs[..|txs| - 1], keyOf, split, key), if keyOf(t) == key then split(t) else Totals(0, 0))
  }

  /** What all transactions add up to. */
  function SplitTotals(txs: seq<Transaction>, split: Transaction -> Totals): Totals
  {
    if txs == [] then Totals(0, 0) else Plus(SplitTotals(txs[..|txs| - 1], split), split(txs[|txs| - 1]))
  }

  /** The sums of the buckets' incomes and of their expenses. */
  function BucketTotals(bs: seq<Bucket>): Totals
  {
    if bs == [] then Totals(0, 0)
    else Plus(BucketTotals(bs[..|bs| - 1]), Totals(bs[|bs| - 1].income, bs[|bs| - 1].expense))
  }

  // ---------------------------------------------------------------------
  // Properties of the grouping
  // ---------------------------------------------------------------------

  lemma FirstIndexAppend(s: seq<string>, y: string, x: string)
    ensures x in s ==> FirstIndex(s + [y], x) == FirstIndex(s, x)
    ensures x !in s && x == y ==> FirstIndex(s + [y], x) == |s|
  {
    if x in s {
      assert (s + [y])[FirstIndex(s, x)] == x;
    } else if x == y {
      assert (s + [y])[|s|] == x;
    }
  }

  /** Scanning one more key leaves the first positions of the keys already seen alone. */
  lemma FirstIndexKept(keys: seq<string>, k: string)
    ensures forall x :: x in keys ==> FirstIndex(keys + [k], x) == FirstIndex(keys, x)
  {
    forall x | x in keys
      ensures FirstIndex(keys + [k], x) == FirstIndex(keys, x)
    {
      FirstIndexAppend(keys, k, x);
    }
  }

  /** A key seen for the first time goes after every key already in the order. */
  lemma OrderStepNew(keys: seq<string>, order: seq<string>, k: string)
    requires FirstAppearanceOrder(keys, order) && k !in order
    ensures FirstAppearanceOrder(keys + [k], order + [k])
  {
    var keys', order' := keys + [k], order + [k];
    FirstIndexKept(keys, k);
    FirstIndexAppend(keys, k, k);
    forall i, j | 0 <= i < j < |order'|
      ensures FirstIndex(keys', order'[i]) < FirstIndex(keys', order'[j])
    {
      assert order'[i] == order[i] && order[i] in keys;
      if j < |order| {
        assert order'[j] == order[j] && order[j] in keys;
      } else {
        assert order'[j] == k;
      }
    }
  }

  /** Appending one key to the scanned keys keeps the creation order in first-appearance order. */
  lemma OrderStep(keys: seq<string>, order: seq<string>, k: string)
    requires FirstAppearanceOrder(keys, order)
    ensures FirstAppearanceOrder(keys + [k], if k in order then order else order + [k])
  {
    if k !in order {
      OrderStepNew(keys, order, k);
    } else {
      FirstIndexKept(keys, k);
      assert k in keys;
    }
  }

  /** The buckets come out once per distinct key, in first-appearance order. */
  lemma {:induction false} FoldOrder(txs: seq<Transaction>, keyOf: Transaction -> string, split: Transaction -> Totals)
    ensures FirstAppearanceOrder(KeysOf(txs, keyOf), Fold(txs, keyOf, split).order)
  {
    if txs != [] {
      var p, t := txs[..|txs| - 1], txs[|txs| - 1];
      FoldOrder(p, keyOf, split);
      FoldWellFormed(p, keyOf, split);
      var acc, k := Fold(p, keyOf, split), keyOf(t);
      assert KeysOf(txs, keyOf) == KeysOf(p, keyOf) + [k];
      assert (k in acc.order) == (k in acc.totals);
      OrderStep(KeysOf(p, keyOf), acc.order, k);
    }
  }

  /** Each bucket holds exactly what the transactions with its key add up to; a key no
      transaction has gets no bucket. */
  lemma {:induction false} FoldTotals(txs: seq<Transaction>, keyOf: Transaction -> string, split: Transaction -> Totals, key: string)
    ensures var acc := Fold(txs, keyOf, split);
      (if key in acc.totals then acc.totals[key] else Totals(0, 0)) == KeyTotals(txs, keyOf, split, key)
  {
    if txs != [] {
      var p, t := txs[..|txs| - 1], txs[|txs| - 1];
      FoldTotals(p, keyOf, split, key);
      var acc := Fold(p, keyOf, split);
      if keyOf(t) == key {
        assert Fold(txs, keyOf, split).totals[key]
            == Plus(if key in acc.totals then acc.totals[key] else Totals(0, 0), split(t));
      } else {
        assert Fold(txs, keyOf, split).totals == acc.totals[keyOf(t) := Fold(txs, keyOf, split).totals[keyOf(t)]];
      }
    }
  }

  lemma {:induction false} BucketTotalsUpdate(bs: seq<Bucket>, j: nat, b: Bucket)
    requires j < |bs|
    ensures var t := BucketTotals(bs);
      BucketTotals(bs[j := b]) == Totals(t.income - bs[j].income + b.income, t.expense - bs[j].expense + b.expense)
  {
    var n := |bs| - 1;
    if j < n {
      BucketTotalsUpdate(bs[..n], j, b);
      assert bs[j := b][..n] == bs[..n][j := b];
    } else {
      assert bs[j := b][..n] == bs[..n];
    }
  }

  lemma BucketTotalsAppend(bs: seq<Bucket>, b: Bucket)
    ensures BucketTotals(bs + [b]) == Plus(BucketTotals(bs), Totals(b.income, b.expense))
  {
    assert (bs + [b])[..|bs|] == bs;
  }

  /** Adding to an existing key rewrites that key's bucket in place. */
  lemma EntriesUpdate(acc: Acc, k: string, d: Totals)
    requires WellFormed(acc) && k in acc.totals
    ensures var j := FirstIndex(acc.order, k);
      j < |Entries(acc)| &&
      Entries(Add(acc, k, d))
        == Entries(acc)[j := Bucket(k, acc.totals[k].income + d.income, acc.totals[k].expense + d.expense)]
  {
    var j := FirstIndex(acc.order, k);
    var bs, bs' := Entries(acc), Entries(Add(acc, k, d));
    var b := Bucket(k, acc.totals[k].income + d.income, acc.totals[k].expense + d.expense);
    forall i | 0 <= i < |bs'|
      ensures bs'[i] == bs[j := b][i]
    {
      if i != j {
        assert acc.order[i] != k by {
          if i > j {
            assert acc.order[j] == k;
          }
        }
      }
    }
  }

  /** Adding to a new key appends its bucket. */
  lemma EntriesAppend(acc: Acc, k: string, d: Totals)
    requires WellFormed(acc) && k !in acc.totals
    ensures Entries(Add(acc, k, d)) == Entries(acc) + [Bucket(k, d.income, d.expense)]
  {
  }

  /** One reduce step adds its delta to the buckets' grand totals. */
  lemma EntriesAdd(acc: Acc, k: string, d: Totals)
    requires WellFormed(acc)
    ensures BucketTotals(Entries(Add(acc, k, d))) == Plus(BucketTotals(Entries(acc)), d)
  {
    var bs := Entries(acc);
    if k in acc.totals {
      var j := FirstIndex(acc.order, k);
      var b := Bucket(k, acc.totals[k].income + d.income, acc.totals[k].expense + d.expense);
      EntriesUpdate(acc, k, d);
      BucketTotalsUpdate(bs, j, b);
    } else {
      EntriesAppend(acc, k, d);
      BucketTotalsAppend(bs, Bucket(k, d.income, d.expense));
    }
  }

  /** Grouping neither drops nor double-counts: the buckets add up to the whole input. */
  lemma {:induction false} SummaryTotals(txs: seq<Transaction>, keyOf: Transaction -> string, split: Transaction -> Totals)
    ensures BucketTotals(Summary(txs, keyOf, split)) == SplitTotals(txs, split)
  {
    if txs != [] {
      var p, t := txs[..|txs| - 1], txs[|txs| - 1];
      SummaryTotals(p, keyOf, split);
      FoldWellFormed(p, keyOf, split);
      EntriesAdd(Fold(p, keyOf, split), keyOf(t), split(t));
    }
  }

  /** What a grouped summary is: one bucket per distinct key, in first-appearance order,
      each holding the totals of the transactions with that key, together adding up to
      the whole input. */
  lemma SummarySpec(txs: seq<Transaction>, keyOf: Transaction -> string, split: Transaction -> Totals)
    ensures var s := Summary(txs, keyOf, split);
      && FirstAppearanceOrder(KeysOf(txs, keyOf), BucketKeys(s))
      && (forall i :: 0 <= i < |s| ==> Totals(s[i].income, s[i].expense) == KeyTotals(txs, keyOf, split, s[i].key))
      && BucketTotals(s) == SplitTotals(txs, split)
  {
    var acc := Fold(txs, keyOf, split);
    var s := Summary(txs, keyOf, split);
    FoldOrder(txs, keyOf, split);
    FoldWellFormed(txs, keyOf, split);
    assert BucketKeys(s) == acc.order;
    forall i | 0 <= i < |s|
      ensures Totals(s[i].income, s[i].expense) == KeyTotals(txs, keyOf, split, s[i].key)
    {
      assert s[i].key == acc.order[i] && acc.order[i] in acc.totals;
      FoldTotals(txs, keyOf, split, s[i].key);
    }
    SummaryTotals(txs, keyOf, split);
  }

  /** The reduce as the views run it: a loop that creates a bucket on first sight of
      its key and adds each transaction's contribution in place. */
  method Group(txs: seq<Transaction>, keyOf: Transaction -> string, split: Transaction -> Totals)
    returns (buckets: seq<Bucket>)
    ensures buckets == Summary(txs, keyOf, split)
  {
    var totals: map<string, Totals> := map[];
    var order: seq<string> := [];
    for i := 0 to |txs|
      invariant Acc(totals, order) == Fold(txs[..i], keyOf, split)
    {
      ghost var before := Acc(totals, order);
      assert txs[..i + 1][..i] == txs[..i];
      assert Fold(txs[..i + 1], keyOf, split) == Add(before, keyOf(txs[i]), split(txs[i]));
      var key := keyOf(txs[i]);
      if key !in totals {
        totals := totals[key := Totals(0, 0)];
        order := order + [key];
      }
      var delta := split(txs[i]);
      totals := totals[key := Totals(totals[key].income + delta.income, totals[key].expense + delta.expense)];
      assert totals == Add(before, key, delta).totals;
    }
    assert txs[..|txs|] == txs;
    FoldWellFormed(txs, keyOf, split);
    buckets := Entries(Acc(totals, order));
  }
}
