/**
 * Month buckets of the analytics charts: a `Map` from a month label to the income
 * and expenses of that month, kept in insertion order. The trend chart labels a
 * month with its name and year (`Oct 2026`); the income-versus-expenses chart
 * labels it with its name only (`October`). A label is modelled by the civil
 * month it names.
 */
module Buckets {
  import opened Calendar
  import opened Seqs
  import opened Records

  datatype MonthKey = YearMonth(year: int, month: int) | MonthName(month: int)

  datatype KeyMode = ByYearAndMonth | ByMonthName

  /** The label `toLocaleDateString` gives the month of d. */
  function KeyOf(d: Date, mode: KeyMode): MonthKey {
    match mode
    case ByYearAndMonth => YearMonth(d.year, d.month)
    case ByMonthName => MonthName(d.month)
  }

  /** The label of month index k. */
  function KeyOfIndex(k: int, mode: KeyMode): MonthKey {
    match mode
    case ByYearAndMonth => YearMonth(k / 12, k % 12)
    case ByMonthName => MonthName(k % 12)
  }

  lemma KeyOfDate(d: Date, mode: KeyMode)
    ensures KeyOf(d, mode) == KeyOfIndex(MonthIndex(d), mode)
  {
    MonthIndexParts(d);
  }

  /** Name-and-year labels tell every two months apart; name labels tell apart
      months less than a year apart. */
  lemma KeyOfIndexInjective(a: int, b: int, mode: KeyMode)
    requires mode == ByYearAndMonth || (a <= b < a + 12)
    ensures KeyOfIndex(a, mode) == KeyOfIndex(b, mode) <==> a == b
  {
    if KeyOfIndex(a, mode) == KeyOfIndex(b, mode) {
      assert a == 12 * (a / 12) + a % 12 && b == 12 * (b / 12) + b % 12;
    }
  }

  datatype Bucket = Bucket(key: MonthKey, income: real, expenses: real)

  function KeyIs(key: MonthKey): Bucket -> bool {
    (b: Bucket) => b.key == key
  }

  predicate KeysDistinct(bs: seq<Bucket>) {
    forall i, j :: 0 <= i < j < |bs| ==> bs[i].key != bs[j].key
  }

  /** `map.set(b.key, b)`: an existing key keeps its place and takes the new value,
      a new key goes to the end. */
  function MapSet(bs: seq<Bucket>, b: Bucket): (r: seq<Bucket>)
    ensures (forall i :: 0 <= i < |bs| ==> bs[i].key != b.key) ==> r == bs + [b]
    ensures forall i :: 0 <= i < |bs| && bs[i].key == b.key && (forall j :: 0 <= j < i ==> bs[j].key != b.key) ==>
      r == bs[i := b]
  {
    var i := FindFirst(bs, KeyIs(b.key));
    if i.None? then bs + [b] else bs[i.value := b]
  }

  /** n empty buckets for the months from index k0 on. */
  function ZeroBuckets(k0: int, n: nat, mode: KeyMode): (r: seq<Bucket>)
    ensures |r| == n
    ensures forall i :: 0 <= i < n ==> r[i] == Bucket(KeyOfIndex(k0 + i, mode), 0.0, 0.0)
  {
    seq(n, i => Bucket(KeyOfIndex(k0 + i, mode), 0.0, 0.0))
  }

  /** The number of months from the month of `start` to the month of `end`. */
  function MonthCount(start: Date, end: Date): nat {
    if MonthIndex(end) >= MonthIndex(start) then MonthIndex(end) - MonthIndex(start) + 1 else 0
  }

  /** How many distinct labels n consecutive months give. */
  function LabelCount(n: nat, mode: KeyMode): nat {
    if mode == ByMonthName && n > 12 then 12 else n
  }

  lemma ZeroBucketsDistinct(k0: int, n: nat, mode: KeyMode)
    requires mode == ByYearAndMonth || n <= 12
    ensures KeysDistinct(ZeroBuckets(k0, n, mode))
  {
    var bs := ZeroBuckets(k0, n, mode);
    forall i, j | 0 <= i < j < n ensures bs[i].key != bs[j].key {
      KeyOfIndexInjective(k0 + i, k0 + j, mode);
    }
  }

  /** Setting the label of the month after the last one. */
  lemma ZeroBucketsGrow(k0: int, n: nat, mode: KeyMode)
    ensures MapSet(ZeroBuckets(k0, LabelCount(n, mode), mode), Bucket(KeyOfIndex(k0 + n, mode), 0.0, 0.0))
      == ZeroBuckets(k0, LabelCount(n + 1, mode), mode)
  {
    var m := LabelCount(n, mode);
    var bs := ZeroBuckets(k0, m, mode);
    var b := Bucket(KeyOfIndex(k0 + n, mode), 0.0, 0.0);
    if mode == ByMonthName && n >= 12 {
      var i := n % 12;
      assert (k0 + i) % 12 == (k0 + n) % 12 by {
        assert k0 + n == k0 + i + 12 * (n / 12);
      }
      forall j | 0 <= j < i ensures bs[j].key != b.key {
        KeyOfIndexInjective(k0 + j, k0 + i, mode);
      }
      assert bs[i] == b;
      assert bs[i := b] == bs;
    } else {
      forall j | 0 <= j < m ensures bs[j].key != b.key {
        KeyOfIndexInjective(k0 + j, k0 + n, mode);
      }
      assert bs + [b] == ZeroBuckets(k0, m + 1, mode);
    }
  }

  lemma GrowStep(k0: int, n: nat, current: Date, mode: KeyMode)
    requires MonthIndex(current) == k0 + n
    ensures MapSet(ZeroBuckets(k0, LabelCount(n, mode), mode), Bucket(KeyOf(current, mode), 0.0, 0.0))
      == ZeroBuckets(k0, LabelCount(n + 1, mode), mode)
  {
    KeyOfDate(current, mode);
    ZeroBucketsGrow(k0, n, mode);
  }

  /** A date at 00:00 on the first of its month lies after `end` exactly when its month
      does. */
  lemma FirstOfMonthAfter(current: Date, end: Date)
    requires current.day == 1 && current.ms == 0
    ensures Time(current) <= Time(end) <==> MonthIndex(current) <= MonthIndex(end)
  {
    if Time(current) <= Time(end) {
      MonthIndexMonotone(current, end);
    } else if MonthIndex(current) <= MonthIndex(end) {
      TimeWithinMonth(end);
      MonthStartOrder(MonthIndex(current), MonthIndex(end));
    }
  }

  /** `current.setMonth(current.getMonth() + 1)` on the first of a month at 00:00. */
  function NextMonth(current: Date): (r: Date)
    requires current.day == 1 && current.ms == 0
    ensures MonthIndex(r) == MonthIndex(current) + 1 && r.day == 1 && r.ms == 0
  {
    MakeDateCivil(current.year, current.month + 1, 1, 0);
    MakeDate(current.year, current.month + 1, 1, 0)
  }

  /** The month loop: from the first of the start's month, one bucket per month while
      that first day is not after `end`. */
  method MonthsMap(start: Date, end: Date, mode: KeyMode) returns (bs: seq<Bucket>)
    ensures bs == ZeroBuckets(MonthIndex(start), LabelCount(MonthCount(start, end), mode), mode)
    ensures KeysDistinct(bs)
  {
    var k0 := MonthIndex(start);
    var current := MakeDate(start.year, start.month, 1, 0);
    MakeDateCivil(start.year, start.month, 1, 0);
    bs := [];
    ghost var n := 0;
    while Time(current) <= Time(end)
      invariant MonthIndex(current) == k0 + n && current.day == 1 && current.ms == 0
      invariant n == 0 || k0 + n - 1 <= MonthIndex(end)
      invariant bs == ZeroBuckets(k0, LabelCount(n, mode), mode)
      decreases MonthIndex(end) + 1 - MonthIndex(current)
    {
      FirstOfMonthAfter(current, end);
      GrowStep(k0, n, current, mode);
      bs := MapSet(bs, Bucket(KeyOf(current, mode), 0.0, 0.0));
      current := NextMonth(current);
      n := n + 1;
    }
    FirstOfMonthAfter(current, end);
    assert n == MonthCount(start, end);
    ZeroBucketsDistinct(k0, LabelCount(n, mode), mode);
  }

  /** The amounts of kind `kind` among the transactions whose date carries label `key`. */
  function AmountIn(ts: seq<Transaction>, key: MonthKey, mode: KeyMode, kind: TxType): real {
    if ts == [] then 0.0
    else
      var t := ts[|ts| - 1];
      AmountIn(ts[..|ts| - 1], key, mode, kind) + (if KeyOf(t.date, mode) == key && t.kind == kind then t.amount else 0.0)
  }

  /** The `forEach` that looks each transaction's label up and, if the map has it,
      adds the amount to the bucket's income or, for anything else, its expenses. */
  method AddTransactions(bs: seq<Bucket>, ts: seq<Transaction>, mode: KeyMode) returns (r: seq<Bucket>)
    requires KeysDistinct(bs)
    ensures |r| == |bs|
    ensures forall k :: 0 <= k < |bs| ==>
      (r[k].key == bs[k].key
       && r[k].income == bs[k].income + AmountIn(ts, bs[k].key, mode, Income)
       && r[k].expenses == bs[k].expenses + AmountIn(ts, bs[k].key, mode, Expense))
  {
    r := bs;
    for i := 0 to |ts|
      invariant |r| == |bs|
      invariant forall k :: 0 <= k < |bs| ==>
        (r[k].key == bs[k].key
         && r[k].income == bs[k].income + AmountIn(ts[..i], bs[k].key, mode, Income)
         && r[k].expenses == bs[k].expenses + AmountIn(ts[..i], bs[k].key, mode, Expense))
    {
      var t := ts[i];
      assert ts[..i + 1][..i] == ts[..i] && ts[..i + 1][i] == t;
      var key := KeyOf(t.date, mode);
      var j := FindFirst(r, KeyIs(key));
      if j.Some? {
        var b := r[j.value];
        r := r[j.value := if t.kind == Income then b.(income := b.income + t.amount)
                          else b.(expenses := b.expenses + t.amount)];
      }
    }
    assert ts[..|ts|] == ts;
  }

  /** The buckets of the months k0 .. k0 + n - 1 after adding `ts`. */
  function FilledBuckets(k0: int, n: nat, ts: seq<Transaction>, mode: KeyMode): (r: seq<Bucket>)
    ensures |r| == n
  {
    seq(n, i => Bucket(KeyOfIndex(k0 + i, mode), AmountIn(ts, KeyOfIndex(k0 + i, mode), mode, Income),
                       AmountIn(ts, KeyOfIndex(k0 + i, mode), mode, Expense)))
  }

  /** The month loop followed by the transaction loop. */
  method MonthSeries(start: Date, end: Date, ts: seq<Transaction>, mode: KeyMode) returns (r: seq<Bucket>)
    ensures r == FilledBuckets(MonthIndex(start), LabelCount(MonthCount(start, end), mode), ts, mode)
  {
    var bs := MonthsMap(start, end, mode);
    r := AddTransactions(bs, ts, mode);
  }

  function BucketAmount(kind: TxType): Bucket -> real {
    (b: Bucket) => if kind == Income then b.income else b.expenses
  }

  /** The amounts of one kind over the labels of months k0 .. k0 + n - 1. */
  function LabelledSum(k0: int, n: nat, ts: seq<Transaction>, kind: TxType): real
    decreases n
  {
    if n == 0 then 0.0 else AmountIn(ts, KeyOfIndex(k0, ByYearAndMonth), ByYearAndMonth, kind) + LabelledSum(k0 + 1, n - 1, ts, kind)
  }

  lemma {:induction false} FilledSum(k0: int, n: nat, ts: seq<Transaction>, kind: TxType)
    ensures Sum(FilledBuckets(k0, n, ts, ByYearAndMonth), BucketAmount(kind)) == LabelledSum(k0, n, ts, kind)
    decreases n
  {
    if n > 0 {
      var r := FilledBuckets(k0, n, ts, ByYearAndMonth);
      assert r[1..] == FilledBuckets(k0 + 1, n - 1, ts, ByYearAndMonth);
      FilledSum(k0 + 1, n - 1, ts, kind);
    }
  }

  /** Adding one transaction adds its amount to the labelled sum once if its month is
      among the labelled ones, and not at all otherwise. */
  lemma {:induction false} LabelledSumStep(k0: int, n: nat, ts: seq<Transaction>, t: Transaction, kind: TxType)
    ensures LabelledSum(k0, n, ts + [t], kind) == LabelledSum(k0, n, ts, kind)
      + (if k0 <= MonthIndex(t.date) < k0 + n && t.kind == kind then t.amount else 0.0)
    decreases n
  {
    if n > 0 {
      LabelledSumStep(k0 + 1, n - 1, ts, t, kind);
      assert (ts + [t])[..|ts|] == ts;
      KeyOfDate(t.date, ByYearAndMonth);
      KeyOfIndexInjective(k0, MonthIndex(t.date), ByYearAndMonth);
    }
  }

  /** With name-and-year labels every transaction of the covered months is counted
      in exactly one bucket: the buckets add up to the totals. */
  lemma {:induction false} FilledConservation(k0: int, n: nat, ts: seq<Transaction>, kind: TxType)
    requires forall t <- ts :: k0 <= MonthIndex(t.date) < k0 + n
    ensures Sum(FilledBuckets(k0, n, ts, ByYearAndMonth), BucketAmount(kind)) == Total(ts, kind)
  {
    FilledSum(k0, n, ts, kind);
    LabelledConservation(k0, n, ts, kind);
  }

  lemma {:induction false} LabelledConservation(k0: int, n: nat, ts: seq<Transaction>, kind: TxType)
    requires forall t <- ts :: k0 <= MonthIndex(t.date) < k0 + n
    ensures LabelledSum(k0, n, ts, kind) == Total(ts, kind)
    decreases |ts|
  {
    if ts == [] {
      LabelledEmpty(k0, n, kind);
    } else {
      var init, t := ts[..|ts| - 1], ts[|ts| - 1];
      assert ts == init + [t];
      LabelledConservation(k0, n, init, kind);
      LabelledSumStep(k0, n, init, t, kind);
      TotalConcat(init, [t], kind);
      TotalOfOne(t, kind);
    }
  }

  lemma {:induction false} LabelledEmpty(k0: int, n: nat, kind: TxType)
    ensures LabelledSum(k0, n, [], kind) == 0.0
    decreases n
  {
    if n > 0 {
      LabelledEmpty(k0 + 1, n - 1, kind);
    }
  }

  /** The transactions dated in the months k0 .. k0 + n - 1. */
  function InMonths(k0: int, n: nat): Transaction -> bool {
    (t: Transaction) => k0 <= MonthIndex(t.date) < k0 + n
  }

  /** For any transactions, the labelled sums are the totals of those dated in the
      labelled months: the others are counted nowhere. */
  lemma {:induction false} LabelledWindow(k0: int, n: nat, ts: seq<Transaction>, kind: TxType)
    ensures LabelledSum(k0, n, ts, kind) == Total(Filter(ts, InMonths(k0, n)), kind)
    decreases |ts|
  {
    var p := InMonths(k0, n);
    if ts == [] {
      LabelledEmpty(k0, n, kind);
    } else {
      var init, t := ts[..|ts| - 1], ts[|ts| - 1];
      assert ts == init + [t];
      LabelledWindow(k0, n, init, kind);
      LabelledSumStep(k0, n, init, t, kind);
      FilterConcat(init, [t], p);
      TotalConcat(Filter(init, p), Filter([t], p), kind);
      assert [t][1..] == [];
      if p(t) {
        assert Filter([t], p) == [t];
        TotalOfOne(t, kind);
      } else {
        assert Filter([t], p) == [];
      }
    }
  }

  /** The name-and-year buckets of months k0 .. k0 + n - 1 add up to the totals of the
      transactions dated in those months, whatever else `ts` holds. */
  lemma FilledWindow(k0: int, n: nat, ts: seq<Transaction>, kind: TxType)
    ensures Sum(FilledBuckets(k0, n, ts, ByYearAndMonth), BucketAmount(kind)) == Total(Filter(ts, InMonths(k0, n)), kind)
  {
    FilledSum(k0, n, ts, kind);
    LabelledWindow(k0, n, ts, kind);
  }

  /** A transaction whose month is not covered lands in no name-and-year bucket. */
  lemma OutsideNotCounted(k0: int, n: nat, t: Transaction, kind: TxType)
    requires !(k0 <= MonthIndex(t.date) < k0 + n)
    ensures forall i :: 0 <= i < n ==>
      FilledBuckets(k0, n, [t], ByYearAndMonth)[i].income == 0.0 && FilledBuckets(k0, n, [t], ByYearAndMonth)[i].expenses == 0.0
  {
    KeyOfDate(t.date, ByYearAndMonth);
    var r := FilledBuckets(k0, n, [t], ByYearAndMonth);
    assert [t][..0] == [];
    forall i | 0 <= i < n ensures r[i].income == 0.0 && r[i].expenses == 0.0 {
      var key := KeyOfIndex(k0 + i, ByYearAndMonth);
      KeyOfIndexInjective(k0 + i, MonthIndex(t.date), ByYearAndMonth);
      assert KeyOf(t.date, ByYearAndMonth) != key;
      assert AmountIn([t], key, ByYearAndMonth, Income) == AmountIn([], key, ByYearAndMonth, Income);
      assert AmountIn([t], key, ByYearAndMonth, Expense) == AmountIn([], key, ByYearAndMonth, Expense);
    }
  }
}
