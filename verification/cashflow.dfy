/** The cashflow feature extractor (backend/app/cashflow_analyzer.py): one
    user's transaction list becomes a CashflowMetrics record through keyword
    and merchant-category classification, per-month bucketing, medians and
    guarded, capped ratios. */
module Cashflow {
  import opened Wrappers
  import opened Seqs
  import opened Text
  import opened Sorting
  import opened Models

  const EssentialMccCodes: set<string> := {
    "5411", "5412", "5422",
    "5541", "5542", "5983",
    "5912", "5976",
    "4814", "4816", "4899",
    "6300", "6513"
  }

  const IncomeKeywords: seq<string> :=
    ["salary", "payroll", "deposit", "direct dep", "wage", "income"]

  const RecurringKeywords: seq<string> :=
    ["loan", "mortgage", "rent", "payment", "subscription", "auto pay"]

  const EssentialKeywords: seq<string> :=
    ["grocery", "gas", "fuel", "pharmacy", "medical", "utility", "electric",
     "water", "rent", "mortgage", "insurance", "phone", "internet"]

  const NsfKeywords: seq<string> :=
    ["nsf", "overdraft", "insufficient", "returned payment"]

  const LateKeyword: string := "late"

  /** Income buckets fall back to transactions above this amount when no
      transaction is recognised as income. */
  const FallbackIncomeFloor: real := 100.0

  function Min(a: real, b: real): real { if a <= b then a else b }
  function Max(a: real, b: real): real { if a >= b then a else b }

  // ---------------------------------------------------------------------
  // Classification

  /** The lower-cased `"{merchant or ''} {counterparty or ''}"` text. */
  function PartyText(t: BankTransaction): string {
    ToLower(t.merchant.GetOr("") + " " + t.counterparty.GetOr(""))
  }

  function MerchantText(t: BankTransaction): string {
    ToLower(t.merchant.GetOr(""))
  }

  predicate IsIncomeTransaction(t: BankTransaction) {
    t.transactionType == Income || ContainsAny(PartyText(t), IncomeKeywords)
  }

  /** Essential by merchant category code, else by merchant keyword. */
  predicate IsEssentialSpending(t: BankTransaction) {
    (t.mcc.Some? && t.mcc.value != "" && t.mcc.value in EssentialMccCodes)
    || ContainsAny(MerchantText(t), EssentialKeywords)
  }

  predicate IsRecurringPayment(t: BankTransaction) {
    ContainsAny(PartyText(t), RecurringKeywords)
  }

  predicate IsNsfEvent(t: BankTransaction) {
    ContainsAny(PartyText(t), NsfKeywords)
  }

  predicate IsLateFee(t: BankTransaction) {
    Contains(PartyText(t), LateKeyword)
  }

  predicate IsDebit(t: BankTransaction) { t.amount < 0.0 }

  predicate IsEssentialDebit(t: BankTransaction) { IsDebit(t) && IsEssentialSpending(t) }

  predicate IsDiscretionaryDebit(t: BankTransaction) { IsDebit(t) && !IsEssentialSpending(t) }

  predicate IsRecurringDebit(t: BankTransaction) { IsDebit(t) && IsRecurringPayment(t) }

  predicate IsMatchedIncome(t: BankTransaction) { t.amount > 0.0 && IsIncomeTransaction(t) }

  predicate IsAboveIncomeFloor(t: BankTransaction) { t.amount > FallbackIncomeFloor }

  function Amount(t: BankTransaction): real { t.amount }

  function AbsAmount(t: BankTransaction): real { if t.amount < 0.0 then -t.amount else t.amount }

  // ---------------------------------------------------------------------
  // Per-month bucketing (a `defaultdict(float)` keyed by month, in order of
  // first appearance)

  datatype MonthTotal = MonthTotal(monthKey: int, total: real)

  function TotalOf(b: MonthTotal): real { b.total }

  function MonthOf(t: BankTransaction): int { t.timestamp.monthKey }

  predicate DistinctMonths(bs: seq<MonthTotal>) {
    forall i, j :: 0 <= i < j < |bs| ==> bs[i].monthKey != bs[j].monthKey
  }

  function MonthSet(bs: seq<MonthTotal>): set<int> {
    set i | 0 <= i < |bs| :: bs[i].monthKey
  }

  predicate AllTotals(bs: seq<MonthTotal>, lo: real, strict: bool) {
    forall i :: 0 <= i < |bs| ==> (if strict then bs[i].total > lo else bs[i].total >= lo)
  }

  lemma MonthSetCons(b: MonthTotal, bs: seq<MonthTotal>)
    ensures MonthSet([b] + bs) == {b.monthKey} + MonthSet(bs)
  {
    var s := [b] + bs;
    assert s[0].monthKey in MonthSet(s);
    forall k | k in MonthSet(s) ensures k in {b.monthKey} + MonthSet(bs) {
      var i :| 0 <= i < |s| && s[i].monthKey == k;
      if i > 0 {
        assert bs[i - 1].monthKey == k;
      }
    }
    forall k | k in MonthSet(bs) ensures k in MonthSet(s) {
      var i :| 0 <= i < |bs| && bs[i].monthKey == k;
      assert s[i + 1].monthKey == k;
    }
  }

  function KeyOf(b: MonthTotal): int { b.monthKey }

  /** The bucket months, in bucket order. */
  function Keys(bs: seq<MonthTotal>): seq<int> { MapSeq(bs, KeyOf) }

  lemma KeysCons(b: MonthTotal, bs: seq<MonthTotal>)
    ensures Keys([b] + bs) == [b.monthKey] + Keys(bs)
  {
  }

  /** The total recorded for month `k`: that of its first bucket, or 0 when
      there is none (a `defaultdict` lookup). */
  function TotalAt(bs: seq<MonthTotal>, k: int): real {
    if bs == [] then 0.0
    else if bs[0].monthKey == k then bs[0].total
    else TotalAt(bs[1..], k)
  }

  /** Without duplicate months, every bucket is the one its month finds. */
  lemma {:induction false} TotalAtBucket(bs: seq<MonthTotal>, i: int)
    requires DistinctMonths(bs)
    requires 0 <= i < |bs|
    ensures TotalAt(bs, bs[i].monthKey) == bs[i].total
  {
    if i > 0 {
      assert bs[0].monthKey != bs[i].monthKey;
      assert bs[1..][i - 1] == bs[i];
      TotalAtBucket(bs[1..], i - 1);
    }
  }

  predicate InMonth(k: int, t: BankTransaction) { MonthOf(t) == k }

  function InMonthOf(k: int): BankTransaction -> bool { t => InMonth(k, t) }

  /** Reference: the sum of `value` over the transactions dated in month `k`. */
  function MonthSum(txns: seq<BankTransaction>, value: BankTransaction -> real, k: int): real {
    SumOf(Filter(txns, InMonthOf(k)), value)
  }

  lemma MonthSumSnoc(init: seq<BankTransaction>, last: BankTransaction, value: BankTransaction -> real, k: int)
    ensures MonthSum(init + [last], value, k)
      == MonthSum(init, value, k) + (if MonthOf(last) == k then value(last) else 0.0)
  {
    var p := InMonthOf(k);
    FilterSnoc(init, last, p);
    SumOfAppend(Filter(init, p), if p(last) then [last] else [], value);
    assert [last][1..] == [];
  }

  /** Reference: the distinct months of `txns` in order of first appearance. */
  function MonthsInOrder(txns: seq<BankTransaction>): (r: seq<int>)
    ensures Distinct(r)
    ensures forall t :: t in txns ==> MonthOf(t) in r
    ensures |r| <= |txns|
    ensures |r| == 0 <==> |txns| == 0
  {
    if txns == [] then []
    else
      var init := txns[..|txns| - 1];
      var last := txns[|txns| - 1];
      assert forall t :: t in txns ==> t in init || t == last by {
        forall t | t in txns ensures t in init || t == last {
          var i :| 0 <= i < |txns| && txns[i] == t;
          if i < |init| {
            assert init[i] == t;
          }
        }
      }
      var prev := MonthsInOrder(init);
      if MonthOf(last) in prev then prev else prev + [MonthOf(last)]
  }

  /** Reference: each month's sum of `value`, months in order of first
      appearance. */
  function SumsByMonth(txns: seq<BankTransaction>, value: BankTransaction -> real): (r: seq<real>)
    ensures |r| == |MonthsInOrder(txns)|
    ensures forall i :: 0 <= i < |r| ==> r[i] == MonthSum(txns, value, MonthsInOrder(txns)[i])
  {
    SumsOver(txns, value, MonthsInOrder(txns))
  }

  function SumsOver(txns: seq<BankTransaction>, value: BankTransaction -> real, ks: seq<int>): (r: seq<real>)
    ensures |r| == |ks|
    ensures forall i :: 0 <= i < |r| ==> r[i] == MonthSum(txns, value, ks[i])
  {
    if ks == [] then [] else [MonthSum(txns, value, ks[0])] + SumsOver(txns, value, ks[1..])
  }

  /** `monthly[m] += v`. */
  function AddToMonth(bs: seq<MonthTotal>, m: int, v: real): (r: seq<MonthTotal>)
    ensures 0 < |r| <= |bs| + 1
    ensures SumOf(r, TotalOf) == SumOf(bs, TotalOf) + v
    ensures MonthSet(r) == MonthSet(bs) + {m}
  {
    if bs == [] then
      MonthSetCons(MonthTotal(m, v), []);
      [MonthTotal(m, v)]
    else
      assert bs == [bs[0]] + bs[1..];
      MonthSetCons(bs[0], bs[1..]);
      if bs[0].monthKey == m then
        MonthSetCons(MonthTotal(m, bs[0].total + v), bs[1..]);
        [MonthTotal(m, bs[0].total + v)] + bs[1..]
      else
        var rest := AddToMonth(bs[1..], m, v);
        MonthSetCons(bs[0], rest);
        [bs[0]] + rest
  }

  /** Adding to a month never creates a second bucket for it. */
  lemma {:induction false} AddToMonthDistinct(bs: seq<MonthTotal>, m: int, v: real)
    requires DistinctMonths(bs)
    ensures DistinctMonths(AddToMonth(bs, m, v))
  {
    if bs != [] && bs[0].monthKey != m {
      assert bs == [bs[0]] + bs[1..];
      var rest := AddToMonth(bs[1..], m, v);
      var r := [bs[0]] + rest;
      AddToMonthDistinct(bs[1..], m, v);
      assert bs[0].monthKey !in MonthSet(bs[1..]) by {
        forall i | 0 <= i < |bs[1..]| ensures bs[1..][i].monthKey != bs[0].monthKey {
          assert bs[1..][i] == bs[i + 1];
        }
      }
      forall i, j | 0 <= i < j < |r| ensures r[i].monthKey != r[j].monthKey {
        if i == 0 {
          assert r[j].monthKey == rest[j - 1].monthKey;
          assert rest[j - 1].monthKey in MonthSet(rest);
        }
      }
    }
  }

  /** Adding a non-negative (positive) amount keeps every bucket non-negative
      (positive). */
  lemma {:induction false} AddToMonthSign(bs: seq<MonthTotal>, m: int, v: real)
    ensures AllTotals(bs, 0.0, false) && v >= 0.0 ==> AllTotals(AddToMonth(bs, m, v), 0.0, false)
    ensures AllTotals(bs, 0.0, true) && v > 0.0 ==> AllTotals(AddToMonth(bs, m, v), 0.0, true)
  {
    if bs != [] && bs[0].monthKey != m {
      AddToMonthSign(bs[1..], m, v);
    }
  }

  /** Adding `v` to month `m` raises that month's total by `v` and no other. */
  lemma {:induction false} AddToMonthAt(bs: seq<MonthTotal>, m: int, v: real, k: int)
    ensures TotalAt(AddToMonth(bs, m, v), k) == TotalAt(bs, k) + (if k == m then v else 0.0)
  {
    if bs != [] && bs[0].monthKey != m {
      AddToMonthAt(bs[1..], m, v, k);
    } else if bs != [] {
      assert AddToMonth(bs, m, v)[1..] == bs[1..];
    }
  }

  /** A month already present keeps its place; a new one goes last. */
  lemma {:induction false} AddToMonthKeys(bs: seq<MonthTotal>, m: int, v: real)
    ensures Keys(AddToMonth(bs, m, v)) == if m in Keys(bs) then Keys(bs) else Keys(bs) + [m]
  {
    if bs != [] {
      assert bs == [bs[0]] + bs[1..];
      KeysCons(bs[0], bs[1..]);
      if bs[0].monthKey == m {
        KeysCons(MonthTotal(m, bs[0].total + v), bs[1..]);
      } else {
        var rest := AddToMonth(bs[1..], m, v);
        AddToMonthKeys(bs[1..], m, v);
        KeysCons(bs[0], rest);
      }
    }
  }

  /** One step of the bucketing: the buckets of `init` with `last` added are
      the buckets of `init + [last]`. */
  lemma BucketsStep(prev: seq<MonthTotal>, init: seq<BankTransaction>, last: BankTransaction,
                    value: BankTransaction -> real)
    requires DistinctMonths(AddToMonth(prev, MonthOf(last), value(last)))
    requires forall k :: TotalAt(prev, k) == MonthSum(init, value, k)
    requires Keys(prev) == MonthsInOrder(init)
    ensures var r := AddToMonth(prev, MonthOf(last), value(last));
      && (forall k :: TotalAt(r, k) == MonthSum(init + [last], value, k))
      && (forall i :: 0 <= i < |r| ==> r[i].total == MonthSum(init + [last], value, r[i].monthKey))
      && Keys(r) == MonthsInOrder(init + [last])
  {
    var txns := init + [last];
    var r := AddToMonth(prev, MonthOf(last), value(last));
    forall k ensures TotalAt(r, k) == MonthSum(txns, value, k) {
      AddToMonthAt(prev, MonthOf(last), value(last), k);
      MonthSumSnoc(init, last, value, k);
    }
    forall i | 0 <= i < |r| ensures r[i].total == MonthSum(txns, value, r[i].monthKey) {
      TotalAtBucket(r, i);
    }
    AddToMonthKeys(prev, MonthOf(last), value(last));
    assert txns[..|txns| - 1] == init;
  }

  /** Month buckets of `value` over `txns`: one bucket per distinct month, in
      order of first appearance, holding that month's sum. */
  function MonthlyBuckets(txns: seq<BankTransaction>, value: BankTransaction -> real): (r: seq<MonthTotal>)
    ensures |r| == 0 <==> |txns| == 0
    ensures |r| <= |txns|
    ensures DistinctMonths(r)
    ensures MonthSet(r) == set t | t in txns :: MonthOf(t)
    ensures Keys(r) == MonthsInOrder(txns)
    ensures forall i :: 0 <= i < |r| ==> r[i].total == MonthSum(txns, value, r[i].monthKey)
    ensures forall k :: TotalAt(r, k) == MonthSum(txns, value, k)
  {
    if txns == [] then []
    else
      var init := txns[..|txns| - 1];
      var last := txns[|txns| - 1];
      assert txns == init + [last];
      var prev := MonthlyBuckets(init, value);
      MonthsOfSnoc(init, last);
      AddToMonthDistinct(prev, MonthOf(last), value(last));
      BucketsStep(prev, init, last, value);
      AddToMonth(prev, MonthOf(last), value(last))
  }

  lemma MonthsOfSnoc(init: seq<BankTransaction>, last: BankTransaction)
    ensures (set t | t in init + [last] :: MonthOf(t)) == (set t | t in init :: MonthOf(t)) + {MonthOf(last)}
  {
    var txns := init + [last];
    forall t | t in txns ensures t in init || t == last {
      var i :| 0 <= i < |txns| && txns[i] == t;
      if i < |init| {
        assert init[i] == t;
      }
    }
  }

  /** The bucket totals add up to the sum of `value` over all transactions:
      bucketing neither loses nor double-counts an amount. */
  lemma {:induction false} BucketsConserveTotal(txns: seq<BankTransaction>, value: BankTransaction -> real)
    ensures SumOf(MonthlyBuckets(txns, value), TotalOf) == SumOf(txns, value)
  {
    if txns != [] {
      BucketsConserveTotal(txns[..|txns| - 1], value);
      BucketsSumSnoc(txns, value);
      SumSnoc(txns, value);
    }
  }

  /** The buckets of a non-empty list are those of all but its last
      transaction, with the last one added. */
  lemma BucketsSnoc(txns: seq<BankTransaction>, value: BankTransaction -> real)
    requires txns != []
    ensures var last := txns[|txns| - 1];
      MonthlyBuckets(txns, value) == AddToMonth(MonthlyBuckets(txns[..|txns| - 1], value), MonthOf(last), value(last))
  {
  }

  /** The last transaction adds its value to the bucket sum. */
  lemma BucketsSumSnoc(txns: seq<BankTransaction>, value: BankTransaction -> real)
    requires txns != []
    ensures SumOf(MonthlyBuckets(txns, value), TotalOf)
      == SumOf(MonthlyBuckets(txns[..|txns| - 1], value), TotalOf) + value(txns[|txns| - 1])
  {
    BucketsSnoc(txns, value);
  }

  /** The last transaction adds its value to the plain sum. */
  lemma SumSnoc(txns: seq<BankTransaction>, value: BankTransaction -> real)
    requires txns != []
    ensures SumOf(txns, value) == SumOf(txns[..|txns| - 1], value) + value(txns[|txns| - 1])
  {
    var init := txns[..|txns| - 1];
    var last := txns[|txns| - 1];
    assert txns == init + [last];
    SumOfAppend(init, [last], value);
    assert SumOf([last], value) == value(last) by {
      assert [last][1..] == [];
    }
  }

  /** Buckets of a non-negative (positive) value are non-negative (positive). */
  lemma {:induction false} BucketsSign(txns: seq<BankTransaction>, value: BankTransaction -> real)
    ensures (forall t :: t in txns ==> value(t) >= 0.0) ==> AllTotals(MonthlyBuckets(txns, value), 0.0, false)
    ensures (forall t :: t in txns ==> value(t) > 0.0) ==> AllTotals(MonthlyBuckets(txns, value), 0.0, true)
  {
    if txns != [] {
      var init := txns[..|txns| - 1];
      var last := txns[|txns| - 1];
      assert txns == init + [last];
      BucketsSign(init, value);
      AddToMonthSign(MonthlyBuckets(init, value), MonthOf(last), value(last));
    }
  }

  function Totals(bs: seq<MonthTotal>): seq<real> { MapSeq(bs, TotalOf) }

  /** The bucket totals are the per-month sums, month by month. */
  lemma BucketTotalsBySum(txns: seq<BankTransaction>, value: BankTransaction -> real)
    ensures Totals(MonthlyBuckets(txns, value)) == SumsByMonth(txns, value)
  {
    var bs := MonthlyBuckets(txns, value);
    var ks := MonthsInOrder(txns);
    assert |Keys(bs)| == |ks|;
    forall i | 0 <= i < |bs| ensures Totals(bs)[i] == SumsByMonth(txns, value)[i] {
      assert Keys(bs)[i] == bs[i].monthKey;
    }
  }

  /** `_monthly_aggregate`: per-month sums of absolute amounts, or `[0.0]`
      when there is nothing to aggregate. */
  function MonthlyAggregate(txns: seq<BankTransaction>): (r: seq<real>)
    ensures |r| > 0
    ensures forall x :: x in r ==> x >= 0.0
    ensures txns == [] ==> r == [0.0]
    ensures txns != [] ==> |r| <= |txns|
    ensures txns != [] ==> r == SumsByMonth(txns, AbsAmount)
  {
    AggregateFacts(txns);
    if txns == [] then [0.0] else Totals(MonthlyBuckets(txns, AbsAmount))
  }

  lemma AggregateFacts(txns: seq<BankTransaction>)
    ensures var ts := Totals(MonthlyBuckets(txns, AbsAmount));
      && (txns != [] ==> 0 < |ts| <= |txns|)
      && (forall x :: x in ts ==> x >= 0.0)
      && ts == SumsByMonth(txns, AbsAmount)
  {
    AbsBucketsSign(txns);
    TotalsSign(MonthlyBuckets(txns, AbsAmount));
    BucketTotalsBySum(txns, AbsAmount);
  }

  lemma AbsBucketsSign(txns: seq<BankTransaction>)
    ensures AllTotals(MonthlyBuckets(txns, AbsAmount), 0.0, false)
  {
    assert forall t :: t in txns ==> AbsAmount(t) >= 0.0;
    BucketsSign(txns, AbsAmount);
  }

  lemma TotalsSign(bs: seq<MonthTotal>)
    ensures AllTotals(bs, 0.0, false) ==> forall x :: x in Totals(bs) ==> x >= 0.0
    ensures AllTotals(bs, 0.0, true) ==> forall x :: x in Totals(bs) ==> x > 0.0
  {
    assert forall x :: x in Totals(bs) ==> exists i :: 0 <= i < |bs| && x == bs[i].total;
  }

  /** The aggregate's values add up to the total absolute amount. */
  lemma MonthlyAggregateConservesSpend(txns: seq<BankTransaction>)
    requires txns != []
    ensures SumOf(MonthlyAggregate(txns), x => x) == SumOf(txns, AbsAmount)
  {
    var bs := MonthlyBuckets(txns, AbsAmount);
    BucketsConserveTotal(txns, AbsAmount);
    SumOfTotals(bs);
  }

  lemma {:induction false} SumOfTotals(bs: seq<MonthTotal>)
    ensures SumOf(Totals(bs), x => x) == SumOf(bs, TotalOf)
  {
    if bs != [] {
      assert Totals(bs)[1..] == Totals(bs[1..]);
      SumOfTotals(bs[1..]);
    }
  }

  // ---------------------------------------------------------------------
  // Income

  /** `income_txns`: the positive transactions typed or keyword-recognised as
      income, or, when there are none, every transaction above the fallback
      floor. */
  function IncomeTransactions(txns: seq<BankTransaction>): (r: seq<BankTransaction>)
    ensures forall t :: t in r ==> t.amount > 0.0
  {
    var matched := Filter(txns, IsMatchedIncome);
    if matched != [] then matched else Filter(txns, IsAboveIncomeFloor)
  }

  /** Which transactions count as income: the recognised ones when any exist,
      otherwise exactly those above the floor. */
  lemma IncomeSelection(txns: seq<BankTransaction>)
    ensures forall t :: t in IncomeTransactions(txns) ==> t in txns
    ensures (exists t :: t in txns && IsMatchedIncome(t)) ==>
      forall t :: t in txns ==> (t in IncomeTransactions(txns) <==> IsMatchedIncome(t))
    ensures (forall t :: t in txns ==> !IsMatchedIncome(t)) ==>
      forall t :: t in txns ==> (t in IncomeTransactions(txns) <==> t.amount > FallbackIncomeFloor)
  {
    var matched := Filter(txns, IsMatchedIncome);
    if matched != [] {
      assert matched[0] in matched;
    }
  }

  /** The per-month income sums; there are none exactly when no transaction
      counts as income. */
  function IncomeMonths(txns: seq<BankTransaction>): (r: seq<real>)
    ensures forall x :: x in r ==> x > 0.0
    ensures |r| <= |txns|
    ensures r == SumsByMonth(IncomeTransactions(txns), Amount)
    ensures r == [] <==> IncomeTransactions(txns) == []
  {
    var inc := IncomeTransactions(txns);
    BucketsSign(inc, Amount);
    BucketTotalsBySum(inc, Amount);
    Totals(MonthlyBuckets(inc, Amount))
  }

  /** All elements equal. */
  ghost predicate IsConstant(xs: seq<real>) {
    forall i, j :: 0 <= i < |xs| && 0 <= j < |xs| ==> xs[i] == xs[j]
  }

  /** `statistics.stdev` abstracted: a non-negative dispersion that is zero on
      constant data and, like any sample statistic, blind to the order of the
      data. */
  type StdevFn = f: seq<real> -> real |
    && (forall xs: seq<real> :: f(xs) >= 0.0 && (IsConstant(xs) ==> f(xs) == 0.0))
    && (forall xs: seq<real>, ys: seq<real> :: multiset(xs) == multiset(ys) ==> f(xs) == f(ys))
    witness (xs: seq<real>) => 0.0

  datatype IncomeStats = IncomeStats(median: real, cv: real)

  /** The statistics of a non-empty list of positive monthly sums: its median
      and coefficient of variation, capped at 2.0; a single month, or a zero
      median, has no variation. */
  function StatsOf(vals: seq<real>, stdev: StdevFn): (r: IncomeStats)
    requires vals != []
    requires forall x :: x in vals ==> x > 0.0
    ensures r.median >= 0.0
    ensures 0.0 <= r.cv <= 2.0
    ensures |vals| == 1 ==> r.cv == 0.0
    ensures r.median == 0.0 ==> r.cv == 0.0
    ensures r.median == Median(vals)
    ensures Lowest(vals) <= r.median <= Highest(vals)
  {
    var med := Median(vals);
    MedianAtLeast(vals, 0.0);
    MedianBounds(vals, Lowest(vals), Highest(vals));
    IncomeStats(med, Variation(stdev(vals), med, |vals|))
  }

  /** The statistics of the monthly sums do not depend on the order of the
      months. */
  lemma StatsOfPermutation(xs: seq<real>, ys: seq<real>, stdev: StdevFn)
    requires xs != [] && forall x :: x in xs ==> x > 0.0
    requires multiset(xs) == multiset(ys)
    ensures ys != [] && forall y :: y in ys ==> y > 0.0
    ensures StatsOf(xs, stdev) == StatsOf(ys, stdev)
  {
    forall y | y in ys ensures y > 0.0 {
      assert y in multiset(ys);
      assert y in multiset(xs);
      assert y in xs;
    }
    assert |ys| == |multiset(ys)| == |xs|;
    MedianPermutation(xs, ys);
  }

  /** `min(stdev / median, 2.0)` over more than one month with a positive
      median, else 0. */
  function Variation(sd: real, med: real, months: nat): (r: real)
    requires sd >= 0.0
    ensures 0.0 <= r <= 2.0
    ensures months <= 1 || med <= 0.0 ==> r == 0.0
  {
    Min(if months > 1 && med > 0.0 then Ratio(sd, med) else 0.0, 2.0)
  }

  /** `_compute_income_metrics`: the statistics of the monthly income sums, or
      a zero median with the worst-case variation 1.0 when there is no income. */
  function ComputeIncomeMetrics(txns: seq<BankTransaction>, stdev: StdevFn): (r: IncomeStats)
    ensures IncomeTransactions(txns) == [] ==> r == IncomeStats(0.0, 1.0)
    ensures IncomeTransactions(txns) != [] ==> r == StatsOf(IncomeMonths(txns), stdev)
    ensures r.median >= 0.0
    ensures 0.0 <= r.cv <= 2.0
  {
    var vals := IncomeMonths(txns);
    if vals == [] then IncomeStats(0.0, 1.0) else StatsOf(vals, stdev)
  }

  /** Steady income: when every month sums to the same amount, the median is
      that amount and the variation is zero. */
  lemma SteadyIncome(vals: seq<real>, stdev: StdevFn, c: real)
    requires vals != []
    requires forall x :: x in vals ==> x == c
    requires c > 0.0
    ensures StatsOf(vals, stdev) == IncomeStats(c, 0.0)
  {
    MedianOfConstant(vals, c);
    assert IsConstant(vals) by {
      forall i, j | 0 <= i < |vals| && 0 <= j < |vals| ensures vals[i] == vals[j] {
        assert vals[i] in vals && vals[j] in vals;
      }
    }
    assert stdev(vals) == 0.0;
  }

  // ---------------------------------------------------------------------
  // Spending

  datatype SpendingStats = SpendingStats(essentialMedian: real, discretionaryMedian: real)

  /** Essential and discretionary debits split the debits between them. */
  lemma {:induction false} SpendingPartition(txns: seq<BankTransaction>)
    ensures multiset(Filter(txns, IsEssentialDebit)) + multiset(Filter(txns, IsDiscretionaryDebit))
      == multiset(Filter(txns, IsDebit))
  {
    if txns != [] {
      SpendingPartition(txns[1..]);
    }
  }

  /** `_compute_spending_metrics`: the medians of the per-month essential and
      discretionary spend. */
  function ComputeSpendingMetrics(txns: seq<BankTransaction>): (r: SpendingStats)
    ensures r.essentialMedian >= 0.0 && r.discretionaryMedian >= 0.0
    ensures (forall t :: t in txns ==> !IsDebit(t)) ==> r == SpendingStats(0.0, 0.0)
    ensures r.essentialMedian == SpendMedian(Filter(txns, IsEssentialDebit))
    ensures r.discretionaryMedian == SpendMedian(Filter(txns, IsDiscretionaryDebit))
  {
    var ess := Filter(txns, IsEssentialDebit);
    var disc := Filter(txns, IsDiscretionaryDebit);
    NoDebitsNoSpend(txns);
    SpendingStats(SpendMedian(ess), SpendMedian(disc))
  }

  /** Without debits neither category has a transaction. */
  lemma NoDebitsNoSpend(txns: seq<BankTransaction>)
    ensures (forall t :: t in txns ==> !IsDebit(t)) ==>
      Filter(txns, IsEssentialDebit) == [] && Filter(txns, IsDiscretionaryDebit) == []
  {
    FilterNone(txns, IsEssentialDebit);
    FilterNone(txns, IsDiscretionaryDebit);
  }

  /** The median of the monthly aggregate of `xs`: the median of its
      per-month absolute sums, or 0 with nothing to aggregate. */
  function SpendMedian(xs: seq<BankTransaction>): (m: real)
    ensures m >= 0.0
    ensures m == if xs == [] then 0.0 else Median(SumsByMonth(xs, AbsAmount))
  {
    MedianAtLeast(MonthlyAggregate(xs), 0.0);
    if xs == [] then
      MedianOfConstant([0.0], 0.0);
      Median(MonthlyAggregate(xs))
    else
      Median(MonthlyAggregate(xs))
  }

  // ---------------------------------------------------------------------
  // Health metrics

  /** Days of runway: half the monthly surplus over the daily burn, 30 when
      nothing is spent, 0 without a surplus, capped at 90. */
  function BufferDays(monthlyIncome: real, monthlySpend: real): (r: real)
    ensures 0.0 <= r <= 90.0
    ensures monthlySpend <= 0.0 ==> r == 30.0
    ensures monthlySpend > 0.0 && monthlyIncome <= monthlySpend ==> r == 0.0
    ensures monthlySpend > 0.0 && monthlyIncome > monthlySpend ==>
      r == Min(90.0, 15.0 * (monthlyIncome - monthlySpend) / monthlySpend)
  {
    var raw :=
      if monthlySpend > 0.0 then
        var dailyBurn := monthlySpend / 30.0;
        var net := monthlyIncome - monthlySpend;
        if net > 0.0 then
          (if dailyBurn > 0.0 then (net * 0.5) / dailyBurn else 30.0)
        else 0.0
      else 30.0;
    assert monthlySpend > 0.0 && monthlyIncome > monthlySpend ==>
      raw == 15.0 * (monthlyIncome - monthlySpend) / monthlySpend;
    Min(raw, 90.0)
  }

  /** More income never shortens the runway. */
  lemma BufferDaysMonotoneInIncome(i1: real, i2: real, spend: real)
    requires i1 <= i2
    ensures BufferDays(i1, spend) <= BufferDays(i2, spend)
  {
    if spend > 0.0 && i1 > spend {
      var d1 := i1 - spend;
      var d2 := i2 - spend;
      assert 15.0 * d1 <= 15.0 * d2;
      DivMonotone(15.0 * d1, 15.0 * d2, spend);
    }
  }

  /** `a / b` for a positive denominator; non-negative over a non-negative
      numerator. */
  function Ratio(a: real, b: real): (r: real)
    requires b > 0.0
    ensures a >= 0.0 ==> r >= 0.0
  {
    a / b
  }

  lemma DivMonotone(a: real, b: real, c: real)
    requires a <= b && c > 0.0
    ensures a / c <= b / c
  {
    assert b / c - a / c == (b - a) / c;
  }

  function MinDay(txns: seq<BankTransaction>): (d: int)
    requires txns != []
    ensures forall t :: t in txns ==> d <= t.timestamp.day
  {
    if |txns| == 1 then txns[0].timestamp.day
    else
      var rest := MinDay(txns[1..]);
      assert forall t :: t in txns ==> t == txns[0] || t in txns[1..];
      if txns[0].timestamp.day <= rest then txns[0].timestamp.day else rest
  }

  function MaxDay(txns: seq<BankTransaction>): (d: int)
    requires txns != []
    ensures forall t :: t in txns ==> t.timestamp.day <= d
    ensures d >= MinDay(txns)
  {
    if |txns| == 1 then txns[0].timestamp.day
    else
      var rest := MaxDay(txns[1..]);
      assert forall t :: t in txns ==> t == txns[0] || t in txns[1..];
      if txns[0].timestamp.day >= rest then txns[0].timestamp.day else rest
  }

  /** Whole days from the earliest to the latest transaction. */
  function DateRangeDays(txns: seq<BankTransaction>): (n: nat)
    requires txns != []
  {
    MaxDay(txns) - MinDay(txns)
  }

  /** The earliest day after one more transaction is the earlier of the two. */
  lemma {:induction false} MinDaySnoc(txns: seq<BankTransaction>, t: BankTransaction)
    requires txns != []
    ensures MinDay(txns + [t]) == if t.timestamp.day < MinDay(txns) then t.timestamp.day else MinDay(txns)
  {
    var s := txns + [t];
    if |txns| == 1 {
      assert s[1..] == [t];
    } else {
      assert s[1..] == txns[1..] + [t];
      MinDaySnoc(txns[1..], t);
    }
  }

  /** The latest day after one more transaction is the later of the two. */
  lemma {:induction false} MaxDaySnoc(txns: seq<BankTransaction>, t: BankTransaction)
    requires txns != []
    ensures MaxDay(txns + [t]) == if t.timestamp.day > MaxDay(txns) then t.timestamp.day else MaxDay(txns)
  {
    var s := txns + [t];
    if |txns| == 1 {
      assert s[1..] == [t];
    } else {
      assert s[1..] == txns[1..] + [t];
      MaxDaySnoc(txns[1..], t);
    }
  }

  /** The absolute total of the recurring debits. */
  function RecurringTotal(txns: seq<BankTransaction>): (s: real)
    ensures s >= 0.0
  {
    var recurring := Filter(txns, IsRecurringDebit);
    SumOfNonNegative(recurring, AbsAmount);
    SumOf(recurring, AbsAmount)
  }

  /** `_compute_recurring_payments`: the recurring total spread over the
      months the data covers (a month being 30 days), counting at least one
      month; 0 for no data. */
  function RecurringPerMonth(txns: seq<BankTransaction>): (r: real)
    ensures r >= 0.0
    ensures txns == [] ==> r == 0.0
    ensures txns != [] && DateRangeDays(txns) <= 30 ==> r == RecurringTotal(txns)
    ensures txns != [] && DateRangeDays(txns) > 30 ==>
      r == RecurringTotal(txns) / (DateRangeDays(txns) as real / 30.0)
  {
    if txns == [] then 0.0
    else Ratio(RecurringTotal(txns), Months(txns))
  }

  /** One more recurring debit inside the covered date range raises the
      monthly obligation: the month count stays, the total grows. */
  lemma RecurringPerMonthGrows(txns: seq<BankTransaction>, t: BankTransaction)
    requires txns != []
    requires IsRecurringDebit(t)
    requires MinDay(txns) <= t.timestamp.day <= MaxDay(txns)
    ensures RecurringPerMonth(txns + [t]) > RecurringPerMonth(txns)
  {
    RangeSnoc(txns, t);
    RecurringTotalSnoc(txns, t);
    PerMonthOf(txns);
    PerMonthOf(txns + [t]);
    DivStrict(RecurringTotal(txns), RecurringTotal(txns + [t]), Months(txns));
  }

  /** The months a non-empty list covers, at least one. */
  function Months(txns: seq<BankTransaction>): (m: real)
    requires txns != []
    ensures m >= 1.0
  {
    Max(DateRangeDays(txns) as real / 30.0, 1.0)
  }

  lemma PerMonthOf(txns: seq<BankTransaction>)
    requires txns != []
    ensures RecurringPerMonth(txns) == RecurringTotal(txns) / Months(txns)
  {
  }

  lemma RangeSnoc(txns: seq<BankTransaction>, t: BankTransaction)
    requires txns != []
    requires MinDay(txns) <= t.timestamp.day <= MaxDay(txns)
    ensures DateRangeDays(txns + [t]) == DateRangeDays(txns)
    ensures Months(txns + [t]) == Months(txns)
  {
    MinDaySnoc(txns, t);
    MaxDaySnoc(txns, t);
  }

  lemma RecurringTotalSnoc(txns: seq<BankTransaction>, t: BankTransaction)
    requires IsRecurringDebit(t)
    ensures RecurringTotal(txns + [t]) == RecurringTotal(txns) + AbsAmount(t)
    ensures AbsAmount(t) > 0.0
  {
    FilterSnoc(txns, t, IsRecurringDebit);
    SumOfAppend(Filter(txns, IsRecurringDebit), [t], AbsAmount);
    assert SumOf([t], AbsAmount) == AbsAmount(t) by {
      assert [t][1..] == [];
    }
  }

  lemma DivStrict(a: real, b: real, c: real)
    requires a < b && c > 0.0
    ensures a / c < b / c
  {
    assert b / c - a / c == (b - a) / c;
  }

  /** Recurring obligations over median income, capped at 1.0; 1.0 without
      income. */
  function PaymentBurden(txns: seq<BankTransaction>, monthlyIncome: real): (r: real)
    ensures 0.0 <= r <= 1.0
    ensures monthlyIncome <= 0.0 ==> r == 1.0
    ensures monthlyIncome > 0.0 ==> r == Min(RecurringPerMonth(txns) / monthlyIncome, 1.0)
    ensures monthlyIncome > 0.0 && r < 1.0 ==> r * monthlyIncome == RecurringPerMonth(txns)
  {
    var recurring := RecurringPerMonth(txns);
    if monthlyIncome > 0.0 then
      RatioTimes(recurring, monthlyIncome);
      Min(Ratio(recurring, monthlyIncome), 1.0)
    else 1.0
  }

  lemma RatioTimes(a: real, b: real)
    requires b > 0.0
    ensures Ratio(a, b) * b == a
  {
  }

  /** More income never raises the payment burden. */
  lemma PaymentBurdenAntitoneInIncome(txns: seq<BankTransaction>, i1: real, i2: real)
    requires 0.0 < i1 <= i2
    ensures PaymentBurden(txns, i2) <= PaymentBurden(txns, i1)
  {
    DivAntitone(RecurringPerMonth(txns), i1, i2);
  }

  lemma DivAntitone(a: real, i1: real, i2: real)
    requires a >= 0.0 && 0.0 < i1 <= i2
    ensures a / i2 <= a / i1
  {
    assert a / i2 == (a / i1) * (i1 / i2);
    assert i1 / i2 <= 1.0;
    assert a / i1 >= 0.0;
  }

  /** `_compute_on_time_ratio`: one minus late-fee debits over recurring
      debits (at least one), floored at 0; 1.0 without debits. */
  function OnTimeRatio(txns: seq<BankTransaction>): (r: real)
    ensures 0.0 <= r <= 1.0
    ensures (forall t :: t in txns ==> !IsDebit(t)) ==> r == 1.0
    ensures Filter(txns, IsDebit) != [] ==>
      var debits := Filter(txns, IsDebit);
      var payments := CountOf(debits, IsRecurringPayment);
      r == Max(0.0, 1.0 - CountOf(debits, IsLateFee) as real / (if payments > 1 then payments else 1) as real)
    ensures var debits := Filter(txns, IsDebit);
      var payments := CountOf(debits, IsRecurringPayment);
      CountOf(debits, IsLateFee) >= payments && CountOf(debits, IsLateFee) >= 1 ==> r == 0.0
  {
    var debits := Filter(txns, IsDebit);
    FilterNone(txns, IsDebit);
    if debits == [] then 1.0
    else OnTimeShare(CountOf(debits, IsLateFee), CountOf(debits, IsRecurringPayment))
  }

  /** One minus late fees per recurring payment (at least one payment),
      floored at 0: perfect exactly without late fees, and 0 once the late
      fees are as many as the payments. */
  function OnTimeShare(late: nat, payments: nat): (r: real)
    ensures 0.0 <= r <= 1.0
    ensures r == 1.0 <==> late == 0
    ensures late >= payments && late >= 1 ==> r == 0.0
  {
    var total := if payments > 1 then payments else 1;
    ShareFacts(late, total);
    Max(0.0, 1.0 - late as real / total as real)
  }

  lemma ShareFacts(late: nat, total: nat)
    requires total >= 1
    ensures late > 0 ==> late as real / total as real > 0.0
    ensures late >= total ==> late as real / total as real >= 1.0
  {
    if late >= total {
      DivMonotone(total as real, late as real, total as real);
    }
  }

  /** A perfect on-time ratio means exactly that no debit carries a late fee. */
  lemma OnTimePerfectIffNoLateFees(txns: seq<BankTransaction>)
    ensures OnTimeRatio(txns) == 1.0 <==> forall t :: t in txns && IsDebit(t) ==> !IsLateFee(t)
  {
    var debits := Filter(txns, IsDebit);
    if debits != [] {
      CountOfZero(debits, IsLateFee);
    }
  }

  /** The late-fee count only looks at debits: a credit, whatever its text,
      leaves the on-time ratio unchanged. */
  lemma OnTimeIgnoresCredits(txns: seq<BankTransaction>, t: BankTransaction)
    requires t.amount >= 0.0
    ensures OnTimeRatio(txns + [t]) == OnTimeRatio(txns)
  {
    FilterAppend(txns, [t], IsDebit);
    assert Filter([t], IsDebit) == [];
    assert txns + [t] == txns + [t];
    assert Filter(txns + [t], IsDebit) == Filter(txns, IsDebit);
  }

  /** `_count_nsf_events`: each transaction whose text names an overdraft
      keyword counts once. */
  function NsfCount(txns: seq<BankTransaction>): (n: nat)
    ensures n <= |txns|
    ensures n == |Filter(txns, IsNsfEvent)|
  {
    CountOfIsFilterLength(txns, IsNsfEvent);
    CountOf(txns, IsNsfEvent)
  }

  /** The NSF count of a split history is the sum of the parts' counts. */
  lemma NsfCountAdditive(xs: seq<BankTransaction>, ys: seq<BankTransaction>)
    ensures NsfCount(xs + ys) == NsfCount(xs) + NsfCount(ys)
  {
    CountOfAppend(xs, ys, IsNsfEvent);
  }

  // ---------------------------------------------------------------------
  // The analysis

  datatype AnalysisError = EmptyTransactionList

  /** `analyze`: fails on an empty list, else the metrics record, which always
      meets the record's bounds. */
  function Analyze(txns: seq<BankTransaction>, stdev: StdevFn): (r: Result<CashflowMetrics, AnalysisError>)
    ensures r.Failure? <==> txns == []
    ensures r.Success? ==> MetricsInBounds(r.value)
    ensures r.Success? ==> r.value.transactionCount == |txns|
    ensures r.Success? ==> r.value.incomeCv <= 2.0 && r.value.bufferDays <= 90.0
    ensures r.Success? ==> r.value.nsfCount90d <= |txns|
    ensures r.Success? ==> r.value.netIncomeMedian >= 0.0
    ensures r.Success? ==>
      var inc := ComputeIncomeMetrics(txns, stdev);
      var sp := ComputeSpendingMetrics(txns);
      && r.value.netIncomeMedian == inc.median && r.value.incomeCv == inc.cv
      && r.value.essentialSpendMedian == sp.essentialMedian
      && r.value.discretionarySpendMedian == sp.discretionaryMedian
      && r.value.bufferDays == BufferDays(inc.median, sp.essentialMedian + sp.discretionaryMedian)
      && r.value.paymentBurden == PaymentBurden(txns, inc.median)
      && r.value.onTimeRatio == OnTimeRatio(txns)
      && r.value.nsfCount90d == NsfCount(txns)
  {
    if txns == [] then Failure(EmptyTransactionList)
    else
      var income := ComputeIncomeMetrics(txns, stdev);
      var spending := ComputeSpendingMetrics(txns);
      var spend := spending.essentialMedian + spending.discretionaryMedian;
      Success(CashflowMetrics(
        netIncomeMedian := income.median,
        incomeCv := income.cv,
        essentialSpendMedian := spending.essentialMedian,
        discretionarySpendMedian := spending.discretionaryMedian,
        bufferDays := BufferDays(income.median, spend),
        paymentBurden := PaymentBurden(txns, income.median),
        onTimeRatio := OnTimeRatio(txns),
        nsfCount90d := NsfCount(txns),
        transactionCount := |txns|))
  }
}
