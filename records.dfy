/**
 * The two stored entities and the filters and sums every view applies to
 * transactions.
 */
module Records {
  import opened Calendar
  import opened Seqs

  datatype TxType = Income | Expense

  /** A stored transaction; `id` is absent until the store assigns one. */
  datatype Transaction = Transaction(
    id: Option<int>,
    amount: real,
    category: string,
    date: Date,
    description: string,
    kind: TxType)

  /** A stored category. The quick-add of the transaction form stores a
      category with no type, so `kind` is optional. */
  datatype Category = Category(id: Option<int>, name: string, color: string, kind: Option<TxType>)

  /** `if (id)` on an optional numeric id: present and not zero. */
  predicate HasId(id: Option<int>) {
    id.Some? && id.value != 0
  }

  function Amount(t: Transaction): real {
    t.amount
  }

  function KindIs(kind: TxType): Transaction -> bool {
    (t: Transaction) => t.kind == kind
  }

  function DatedWithin(start: Date, end: Date): Transaction -> bool {
    (t: Transaction) => Time(start) <= Time(t.date) <= Time(end)
  }

  /** `ts.filter(t => t.type === kind)`. */
  function OfKind(ts: seq<Transaction>, kind: TxType): (r: seq<Transaction>)
    ensures forall t <- r :: t in ts && t.kind == kind
    ensures forall t <- ts :: t.kind == kind ==> t in r
    ensures IsSubsequence(r, ts)
  {
    FilterIsSubsequence(ts, KindIs(kind));
    Filter(ts, KindIs(kind))
  }

  /** `ts.filter(t => t.type === kind).reduce((sum, t) => sum + t.amount, 0)`. */
  function Total(ts: seq<Transaction>, kind: TxType): real {
    Sum(OfKind(ts, kind), Amount)
  }

  lemma TotalConcat(a: seq<Transaction>, b: seq<Transaction>, kind: TxType)
    ensures Total(a + b, kind) == Total(a, kind) + Total(b, kind)
  {
    FilterConcat(a, b, KindIs(kind));
    SumConcat(OfKind(a, kind), OfKind(b, kind), Amount);
  }

  /** Reordering the transactions by any key keeps every total. */
  lemma TotalSorted(ts: seq<Transaction>, key: Transaction -> real, kind: TxType)
    ensures Total(SortDesc(ts, key), kind) == Total(ts, kind)
  {
    SumFilter(SortDesc(ts, key), KindIs(kind), Amount);
    SumFilter(ts, KindIs(kind), Amount);
    SumSort(ts, key, Masked(KindIs(kind), Amount));
  }

  lemma TotalOfOne(t: Transaction, kind: TxType)
    ensures Total([t], kind) == if t.kind == kind then t.amount else 0.0
  {
    assert [t][1..] == [];
    assert Filter([t], KindIs(kind)) == (if t.kind == kind then [t] else []) + Filter([], KindIs(kind));
    assert OfKind([t], kind) == if t.kind == kind then [t] else [];
    if t.kind == kind {
      assert Sum([t], Amount) == Amount(t) + Sum([t][1..], Amount);
    }
  }

  /** Every transaction is income or expense, so the two totals add up to the sum of
      all amounts. */
  lemma {:induction false} TotalsPartition(ts: seq<Transaction>)
    ensures Total(ts, Income) + Total(ts, Expense) == Sum(ts, Amount)
  {
    if ts != [] {
      TotalsPartition(ts[1..]);
      assert ts == [ts[0]] + ts[1..];
      TotalConcat([ts[0]], ts[1..], Income);
      TotalConcat([ts[0]], ts[1..], Expense);
      TotalOfOne(ts[0], Income);
      TotalOfOne(ts[0], Expense);
    }
  }

  /** `ts.filter(t => start <= t.date && t.date <= end)`, comparing `getTime()`. */
  function Between(ts: seq<Transaction>, start: Date, end: Date): (r: seq<Transaction>)
    ensures forall t <- r :: t in ts && Time(start) <= Time(t.date) <= Time(end)
    ensures forall t <- ts :: Time(start) <= Time(t.date) <= Time(end) ==> t in r
    ensures IsSubsequence(r, ts)
  {
    FilterIsSubsequence(ts, DatedWithin(start, end));
    Filter(ts, DatedWithin(start, end))
  }
}
