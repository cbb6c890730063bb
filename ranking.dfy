/**
 * Expense totals per category name and their ranking, shared by the analytics
 * chart, the analytics top list and the dashboard top list. The totals are
 * accumulated into a plain object (`acc[t.category] = (acc[t.category] || 0) + t.amount`)
 * and read back with `Object.entries`, so they come out in the order each name
 * was first seen.
 */
module Ranking {
  import opened Seqs
  import opened Records

  datatype CategoryTotal = CategoryTotal(name: string, amount: real)

  function TotalAmount(e: CategoryTotal): real {
    e.amount
  }

  function Names(acc: seq<CategoryTotal>): (r: seq<string>)
    ensures |r| == |acc|
    ensures forall i :: 0 <= i < |acc| ==> r[i] == acc[i].name
  {
    if acc == [] then [] else [acc[0].name] + Names(acc[1..])
  }

  /** `acc[name] || 0`. */
  function Lookup(acc: seq<CategoryTotal>, name: string): real {
    if acc == [] then 0.0
    else if acc[0].name == name then acc[0].amount
    else Lookup(acc[1..], name)
  }

  /** `acc[name] = (acc[name] || 0) + amount`: a new key goes to the end, an existing
      key keeps its place. */
  function AddTo(acc: seq<CategoryTotal>, name: string, amount: real): (r: seq<CategoryTotal>)
    ensures Names(r) == if name in Names(acc) then Names(acc) else Names(acc) + [name]
    ensures forall n :: Lookup(r, n) == Lookup(acc, n) + (if n == name then amount else 0.0)
    ensures Sum(r, TotalAmount) == Sum(acc, TotalAmount) + amount
  {
    if acc == [] then
      [CategoryTotal(name, amount)]
    else if acc[0].name == name then
      var r := [acc[0].(amount := acc[0].amount + amount)] + acc[1..];
      assert r[1..] == acc[1..];
      assert Names(r) == Names(acc);
      r
    else
      var rest := AddTo(acc[1..], name, amount);
      var r := [acc[0]] + rest;
      assert r[1..] == rest;
      assert Names(acc) == [acc[0].name] + Names(acc[1..]);
      assert Names(r) == [acc[0].name] + Names(rest);
      r
  }

  /** The names of s in the order each first occurs. */
  function FirstSeen(s: seq<string>): seq<string> {
    if s == [] then []
    else
      var p := FirstSeen(s[..|s| - 1]);
      if s[|s| - 1] in p then p else p + [s[|s| - 1]]
  }

  lemma {:induction false} FirstSeenProperties(s: seq<string>)
    ensures Distinct(FirstSeen(s))
    ensures forall n :: n in FirstSeen(s) <==> n in s
  {
    if s != [] {
      FirstSeenProperties(s[..|s| - 1]);
      assert s == s[..|s| - 1] + [s[|s| - 1]];
    }
  }

  function CategoryOf(t: Transaction): string {
    t.category
  }

  /** The sum of the amounts of the transactions of category `name`. */
  function CategorySum(ts: seq<Transaction>, name: string): real {
    if ts == [] then 0.0
    else CategorySum(ts[..|ts| - 1], name)
         + (if ts[|ts| - 1].category == name then ts[|ts| - 1].amount else 0.0)
  }

  /** The `reduce` that accumulates amounts per category name. */
  function Totals(ts: seq<Transaction>): (r: seq<CategoryTotal>)
    ensures Names(r) == FirstSeen(MapSeq(ts, CategoryOf))
    ensures forall n :: Lookup(r, n) == CategorySum(ts, n)
    ensures Sum(r, TotalAmount) == Sum(ts, Amount)
  {
    if ts == [] then []
    else
      var init, last := ts[..|ts| - 1], ts[|ts| - 1];
      TotalsLast(ts);
      AddTo(Totals(init), last.category, last.amount)
  }

  /** The facts about the last transaction that one step of `Totals` needs. */
  lemma TotalsLast(ts: seq<Transaction>)
    requires ts != []
    ensures var init, last := ts[..|ts| - 1], ts[|ts| - 1];
      FirstSeen(MapSeq(ts, CategoryOf)) ==
        (var p := FirstSeen(MapSeq(init, CategoryOf)); if last.category in p then p else p + [last.category])
      && Sum(ts, Amount) == Sum(init, Amount) + last.amount
  {
    var init, last := ts[..|ts| - 1], ts[|ts| - 1];
    var m := MapSeq(ts, CategoryOf);
    assert m[..|m| - 1] == MapSeq(init, CategoryOf);
    assert ts == init + [last];
    SumConcat(init, [last], Amount);
    assert Sum([last], Amount) == last.amount + Sum([last][1..], Amount);
  }

  /** With distinct names, an entry's amount is what looking up its name gives. */
  lemma {:induction false} LookupEntry(acc: seq<CategoryTotal>, i: nat)
    requires i < |acc| && Distinct(Names(acc))
    ensures Lookup(acc, acc[i].name) == acc[i].amount
  {
    if i > 0 {
      assert Names(acc)[0] != Names(acc)[i];
      assert Names(acc[1..]) == Names(acc)[1..];
      LookupEntry(acc[1..], i - 1);
    }
  }

  /** Per-category totals of the expense transactions, as both views compute them. */
  function ExpenseTotals(ts: seq<Transaction>): seq<CategoryTotal> {
    Totals(OfKind(ts, Expense))
  }

  lemma ExpenseTotalsSpec(ts: seq<Transaction>)
    ensures NamesDistinct(ExpenseTotals(ts))
    ensures forall n :: n in Names(ExpenseTotals(ts)) <==> n in MapSeq(OfKind(ts, Expense), CategoryOf)
    ensures forall e <- ExpenseTotals(ts) :: e.amount == CategorySum(OfKind(ts, Expense), e.name)
    ensures Sum(ExpenseTotals(ts), TotalAmount) == Total(ts, Expense)
  {
    var r := ExpenseTotals(ts);
    FirstSeenProperties(MapSeq(OfKind(ts, Expense), CategoryOf));
    forall e <- r ensures e.amount == CategorySum(OfKind(ts, Expense), e.name) {
      var i :| 0 <= i < |r| && r[i] == e;
      LookupEntry(r, i);
    }
  }

  /** No two entries share a name. */
  predicate NamesDistinct(s: seq<CategoryTotal>) {
    forall i, j :: 0 <= i < j < |s| ==> s[i].name != s[j].name
  }

  /** Inserting an entry under a new name keeps the names distinct. */
  lemma {:induction false} InsertKeepsDistinct(x: CategoryTotal, s: seq<CategoryTotal>)
    requires SortedDesc(s, TotalAmount) && NamesDistinct(s)
    requires forall e <- s :: e.name != x.name
    ensures NamesDistinct(InsertDesc(x, s, TotalAmount))
  {
    if s == [] {
    } else if x.amount >= s[0].amount {
      ConsDistinct(x, s);
    } else {
      var tail := s[1..];
      assert SortedDesc(tail, TotalAmount);
      assert NamesDistinct(tail);
      InsertKeepsDistinct(x, tail);
      var rest := InsertDesc(x, tail, TotalAmount);
      forall e <- rest ensures e.name != s[0].name {
        assert e in multiset(tail) + multiset{x};
        if e != x {
          var j :| 0 <= j < |tail| && tail[j] == e;
          assert s[j + 1] == e;
        }
      }
      ConsDistinct(s[0], rest);
    }
  }

  /** An entry whose name is new can go in front. */
  lemma ConsDistinct(h: CategoryTotal, s: seq<CategoryTotal>)
    requires NamesDistinct(s)
    requires forall e <- s :: e.name != h.name
    ensures NamesDistinct([h] + s)
  {
    var r := [h] + s;
    forall i, j | 0 <= i < j < |r| ensures r[i].name != r[j].name {
      if i == 0 {
        assert r[j] == s[j - 1];
      } else {
        assert r[i] == s[i - 1] && r[j] == s[j - 1];
      }
    }
  }

  lemma {:induction false} SortKeepsDistinct(s: seq<CategoryTotal>)
    requires NamesDistinct(s)
    ensures NamesDistinct(SortDesc(s, TotalAmount))
  {
    if s != [] {
      var tail := s[1..];
      assert NamesDistinct(tail);
      SortKeepsDistinct(tail);
      var rest := SortDesc(tail, TotalAmount);
      forall e <- rest ensures e.name != s[0].name {
        assert e in multiset(tail);
        var j :| 0 <= j < |tail| && tail[j] == e;
        assert s[j + 1] == e;
      }
      InsertKeepsDistinct(s[0], rest);
    }
  }

  /** `Object.entries(totals).sort((a, b) => b.amount - a.amount)` over the expense totals. */
  function Ranked(ts: seq<Transaction>): seq<CategoryTotal> {
    SortDesc(ExpenseTotals(ts), TotalAmount)
  }

  /** The ranked entries are the expense totals, reordered. */
  lemma RankedSpec(ts: seq<Transaction>)
    ensures multiset(Ranked(ts)) == multiset(ExpenseTotals(ts))
    ensures SortedDesc(Ranked(ts), TotalAmount)
    ensures NamesDistinct(Ranked(ts))
    ensures forall v :: WithKey(Ranked(ts), TotalAmount, v) == WithKey(ExpenseTotals(ts), TotalAmount, v)
  {
    ExpenseTotalsSpec(ts);
    SortKeepsDistinct(ExpenseTotals(ts));
    forall v ensures WithKey(Ranked(ts), TotalAmount, v) == WithKey(ExpenseTotals(ts), TotalAmount, v) {
      SortDescStable(ExpenseTotals(ts), TotalAmount, v);
    }
  }

  /** The first n entries of a descending reordering of `all`. */
  lemma TopOfSorted(all: seq<CategoryTotal>, sorted: seq<CategoryTotal>, n: nat)
    requires multiset(sorted) == multiset(all)
    requires SortedDesc(sorted, TotalAmount) && NamesDistinct(sorted)
    ensures SortedDesc(Take(sorted, n), TotalAmount) && NamesDistinct(Take(sorted, n))
    ensures forall e <- Take(sorted, n) :: e in all
    ensures forall e <- all :: e !in Take(sorted, n) ==>
      forall k :: 0 <= k < |Take(sorted, n)| ==> e.amount <= Take(sorted, n)[k].amount
  {
    var top := Take(sorted, n);
    TakeKeepsLargest(sorted, n, TotalAmount);
    forall e <- top ensures e in all {
      assert e in multiset(sorted);
    }
    forall e <- all | e !in top ensures forall k :: 0 <= k < |top| ==> e.amount <= top[k].amount {
      assert e in multiset(sorted);
      var j :| 0 <= j < |sorted| && sorted[j] == e;
      assert j >= |top|;
    }
  }

  /** What every ranked list promises: at most n expense categories, largest first,
      each with its summed amount, no name twice, and every category left out no
      larger than any kept. */
  lemma RankedTop(ts: seq<Transaction>, n: nat)
    ensures |Take(Ranked(ts), n)| <= n
    ensures SortedDesc(Take(Ranked(ts), n), TotalAmount)
    ensures NamesDistinct(Take(Ranked(ts), n))
    ensures forall e <- Take(Ranked(ts), n) ::
      e.name in MapSeq(OfKind(ts, Expense), CategoryOf) && e.amount == CategorySum(OfKind(ts, Expense), e.name)
    ensures forall e <- ExpenseTotals(ts) :: e !in Take(Ranked(ts), n) ==>
      forall k :: 0 <= k < |Take(Ranked(ts), n)| ==> e.amount <= Take(Ranked(ts), n)[k].amount
  {
    ExpenseTotalsSpec(ts);
    EntryNamesSeen(ts);
    RankedSpec(ts);
    TopOfSorted(ExpenseTotals(ts), Ranked(ts), n);
  }

  /** Every entry is named after some expense's category. */
  lemma EntryNamesSeen(ts: seq<Transaction>)
    ensures forall e <- ExpenseTotals(ts) :: e.name in MapSeq(OfKind(ts, Expense), CategoryOf)
  {
    var all := ExpenseTotals(ts);
    ExpenseTotalsSpec(ts);
    forall e <- all ensures e.name in MapSeq(OfKind(ts, Expense), CategoryOf) {
      var i :| 0 <= i < |all| && all[i] == e;
      assert Names(all)[i] == e.name;
    }
  }
}
