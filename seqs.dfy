/**
 * The array operations the components chain together: `filter`, `reduce` to a
 * sum, the stable `sort` with a descending numeric comparator (`(a, b) =>
 * key(b) - key(a)`), and `slice(0, n)`.
 */
module Seqs {

  datatype Option<T> = None | Some(value: T)

  /** `s.filter(p)`. */
  function Filter<T>(s: seq<T>, p: T -> bool): (r: seq<T>)
    ensures |r| <= |s|
    ensures forall x <- r :: x in s && p(x)
    ensures forall x <- s :: p(x) ==> x in r
    ensures forall i :: 0 <= i < |r| ==> p(r[i])
  {
    if s == [] then []
    else (if p(s[0]) then [s[0]] else []) + Filter(s[1..], p)
  }

  /** r is s with some elements left out, the rest in their original order. */
  predicate IsSubsequence<T(==)>(r: seq<T>, s: seq<T>)
    decreases |s|
  {
    if r == [] then true
    else if s == [] then false
    else (r[0] == s[0] && IsSubsequence(r[1..], s[1..])) || IsSubsequence(r, s[1..])
  }

  /** A filter keeps the original order. */
  lemma {:induction false} FilterIsSubsequence<T>(s: seq<T>, p: T -> bool)
    ensures IsSubsequence(Filter(s, p), s)
  {
    if s != [] {
      FilterIsSubsequence(s[1..], p);
      var r := Filter(s, p);
      if p(s[0]) {
        assert r[0] == s[0] && r[1..] == Filter(s[1..], p);
      } else {
        assert r == Filter(s[1..], p);
        if r != [] {
          assert IsSubsequence(r, s[1..]);
        }
      }
    }
  }

  lemma {:induction false} FilterConcat<T>(a: seq<T>, b: seq<T>, p: T -> bool)
    ensures Filter(a + b, p) == Filter(a, p) + Filter(b, p)
  {
    if a == [] {
      assert a + b == b;
    } else {
      var c, head := a + b, if p(a[0]) then [a[0]] else [];
      assert c[0] == a[0] && c[1..] == a[1..] + b;
      FilterConcat(a[1..], b, p);
      assert Filter(c, p) == head + (Filter(a[1..], p) + Filter(b, p));
      assert Filter(a, p) == head + Filter(a[1..], p);
      AppendAssoc(head, Filter(a[1..], p), Filter(b, p));
    }
  }

  /** Filters by predicates that agree on every element keep the same elements. */
  lemma {:induction false} FilterCongruent<T>(s: seq<T>, p: T -> bool, q: T -> bool)
    requires forall x <- s :: p(x) == q(x)
    ensures Filter(s, p) == Filter(s, q)
  {
    if s != [] {
      assert forall x <- s[1..] :: x in s;
      FilterCongruent(s[1..], p, q);
    }
  }

  lemma AppendAssoc<T>(x: seq<T>, y: seq<T>, z: seq<T>)
    ensures x + (y + z) == (x + y) + z
  {
  }

  /** `s.reduce((sum, x) => sum + f(x), 0)`. */
  function Sum<T>(s: seq<T>, f: T -> real): real {
    if s == [] then 0.0 else f(s[0]) + Sum(s[1..], f)
  }

  lemma {:induction false} SumConcat<T>(a: seq<T>, b: seq<T>, f: T -> real)
    ensures Sum(a + b, f) == Sum(a, f) + Sum(b, f)
  {
    if a == [] {
      assert a + b == b;
    } else {
      assert (a + b)[0] == a[0] && (a + b)[1..] == a[1..] + b;
      SumConcat(a[1..], b, f);
    }
  }

  predicate SortedDesc<T>(s: seq<T>, key: T -> real) {
    forall i, j :: 0 <= i < j < |s| ==> key(s[i]) >= key(s[j])
  }

  /** An element no smaller than any of a sorted sequence can go in front of it. */
  lemma ConsSorted<T>(y: T, s: seq<T>, key: T -> real)
    requires SortedDesc(s, key)
    requires forall i :: 0 <= i < |s| ==> key(y) >= key(s[i])
    ensures SortedDesc([y] + s, key)
  {
    var r := [y] + s;
    forall i, j | 0 <= i < j < |r| ensures key(r[i]) >= key(r[j]) {
      assert r[j] == s[j - 1];
      if i > 0 {
        assert r[i] == s[i - 1];
      }
    }
  }

  /** The tail of a sorted sequence is sorted, and its head bounds every element. */
  lemma SortedParts<T>(s: seq<T>, key: T -> real)
    requires SortedDesc(s, key) && s != []
    ensures SortedDesc(s[1..], key)
    ensures forall i :: 0 <= i < |s| ==> key(s[0]) >= key(s[i])
  {
    var tail := s[1..];
    forall i, j | 0 <= i < j < |tail| ensures key(tail[i]) >= key(tail[j]) {
      assert tail[i] == s[i + 1] && tail[j] == s[j + 1];
    }
    forall i | 0 <= i < |s| ensures key(s[0]) >= key(s[i]) {
      if i > 0 {
        assert key(s[0]) >= key(s[i]);
      }
    }
  }

  /** Puts x in front of the first element whose key is not greater than x's. */
  function InsertDesc<T>(x: T, s: seq<T>, key: T -> real): (r: seq<T>)
    requires SortedDesc(s, key)
    ensures SortedDesc(r, key)
    ensures multiset(r) == multiset(s) + multiset{x}
  {
    if s == [] then
      ConsSorted(x, s, key);
      [x]
    else if key(x) >= key(s[0]) then
      SortedParts(s, key);
      ConsSorted(x, s, key);
      [x] + s
    else
      SortedParts(s, key);
      var tail := s[1..];
      var rest := InsertDesc(x, tail, key);
      assert s == [s[0]] + tail;
      assert forall i :: 0 <= i < |rest| ==> key(s[0]) >= key(rest[i]) by {
        forall i | 0 <= i < |rest| ensures key(s[0]) >= key(rest[i]) {
          assert rest[i] in multiset(tail) + multiset{x};
          if rest[i] != x {
            assert rest[i] in tail;
            var j :| 0 <= j < |tail| && tail[j] == rest[i];
            assert tail[j] == s[j + 1];
          }
        }
      }
      ConsSorted(s[0], rest, key);
      [s[0]] + rest
  }

  /** `s.slice().sort((a, b) => key(b) - key(a))`: a stable sort, largest key first. */
  function SortDesc<T>(s: seq<T>, key: T -> real): (r: seq<T>)
    ensures SortedDesc(r, key)
    ensures multiset(r) == multiset(s)
    ensures |r| == |s|
  {
    if s == [] then []
    else
      assert s == [s[0]] + s[1..];
      InsertDesc(s[0], SortDesc(s[1..], key), key)
  }

  /** Inserting adds the inserted element's value to any sum. */
  lemma {:induction false} SumInsert<T>(x: T, s: seq<T>, key: T -> real, f: T -> real)
    requires SortedDesc(s, key)
    ensures Sum(InsertDesc(x, s, key), f) == f(x) + Sum(s, f)
  {
    if s == [] || key(x) >= key(s[0]) {
      var r := [x] + s;
      assert r[0] == x && r[1..] == s;
    } else {
      var rest := InsertDesc(x, s[1..], key);
      SumInsert(x, s[1..], key, f);
      var r := [s[0]] + rest;
      assert r[0] == s[0] && r[1..] == rest;
    }
  }

  /** Sorting does not change a sum. */
  lemma {:induction false} SumSort<T>(s: seq<T>, key: T -> real, f: T -> real)
    ensures Sum(SortDesc(s, key), f) == Sum(s, f)
  {
    if s != [] {
      SumSort(s[1..], key, f);
      SumInsert(s[0], SortDesc(s[1..], key), key, f);
    }
  }

  /** f where p holds, 0 elsewhere. */
  function Masked<T>(p: T -> bool, f: T -> real): T -> real {
    (x: T) => if p(x) then f(x) else 0.0
  }

  /** Summing the kept elements is summing everything with the dropped ones as 0. */
  lemma {:induction false} SumFilter<T>(s: seq<T>, p: T -> bool, f: T -> real)
    ensures Sum(Filter(s, p), f) == Sum(s, Masked(p, f))
  {
    if s != [] {
      SumFilter(s[1..], p, f);
      assert s == [s[0]] + s[1..];
      FilterConcat([s[0]], s[1..], p);
      assert Filter([s[0]], p) == if p(s[0]) then [s[0]] else [];
      SumConcat(Filter([s[0]], p), Filter(s[1..], p), f);
    }
  }

  /** The elements of s whose key is v, in order. */
  function WithKey<T>(s: seq<T>, key: T -> real, v: real): seq<T> {
    if s == [] then []
    else (if key(s[0]) == v then [s[0]] else []) + WithKey(s[1..], key, v)
  }

  lemma {:induction false} InsertDescStable<T>(x: T, s: seq<T>, key: T -> real, v: real)
    requires SortedDesc(s, key)
    ensures WithKey(InsertDesc(x, s, key), key, v)
         == (if key(x) == v then [x] else []) + WithKey(s, key, v)
  {
    if s == [] || key(x) >= key(s[0]) {
      var r := [x] + s;
      assert r[0] == x && r[1..] == s;
    } else {
      var rest := InsertDesc(x, s[1..], key);
      InsertDescStable(x, s[1..], key, v);
      var r := [s[0]] + rest;
      assert r[0] == s[0] && r[1..] == rest;
    }
  }

  /** Stability: among elements with equal keys, the sort keeps the input order. */
  lemma {:induction false} SortDescStable<T>(s: seq<T>, key: T -> real, v: real)
    ensures WithKey(SortDesc(s, key), key, v) == WithKey(s, key, v)
  {
    if s != [] {
      SortDescStable(s[1..], key, v);
      InsertDescStable(s[0], SortDesc(s[1..], key), key, v);
    }
  }

  /** `s.slice(0, n)`. */
  function Take<T>(s: seq<T>, n: nat): (r: seq<T>)
    ensures |r| == if |s| <= n then |s| else n
    ensures r == s[..|r|]
  {
    if |s| <= n then s else s[..n]
  }

  /** Cutting a descending list keeps its largest elements: whatever is cut off
      has a key no larger than anything kept. */
  lemma TakeKeepsLargest<T>(s: seq<T>, n: nat, key: T -> real)
    requires SortedDesc(s, key)
    ensures SortedDesc(Take(s, n), key)
    ensures forall i, j :: 0 <= i < |Take(s, n)| <= j < |s| ==> key(s[j]) <= key(Take(s, n)[i])
  {
  }

  predicate Distinct<T(==)>(s: seq<T>) {
    forall i, j :: 0 <= i < j < |s| ==> s[i] != s[j]
  }

  /** `s.map(f)`. */
  function MapSeq<A, B>(s: seq<A>, f: A -> B): (r: seq<B>)
    ensures |r| == |s|
    ensures forall i :: 0 <= i < |s| ==> r[i] == f(s[i])
  {
    if s == [] then [] else [f(s[0])] + MapSeq(s[1..], f)
  }

  /** Mapping with a function that keeps the sort key keeps a sequence sorted. */
  lemma MapSorted<A, B>(s: seq<A>, f: A -> B, ka: A -> real, kb: B -> real)
    requires SortedDesc(s, ka)
    requires forall y :: kb(f(y)) == ka(y)
    ensures SortedDesc(MapSeq(s, f), kb)
  {
    var ms := MapSeq(s, f);
    forall i, j | 0 <= i < j < |ms| ensures kb(ms[i]) >= kb(ms[j]) {
      assert kb(ms[i]) == ka(s[i]) && kb(ms[j]) == ka(s[j]);
    }
  }

  /** Mapping with a function that keeps the sort key commutes with inserting. */
  lemma {:induction false} InsertMapCommute<A, B>(x: A, s: seq<A>, f: A -> B, ka: A -> real, kb: B -> real)
    requires SortedDesc(s, ka)
    requires forall y :: kb(f(y)) == ka(y)
    ensures SortedDesc(MapSeq(s, f), kb)
    ensures InsertDesc(f(x), MapSeq(s, f), kb) == MapSeq(InsertDesc(x, s, ka), f)
  {
    MapSorted(s, f, ka, kb);
    if s != [] {
      var ms := MapSeq(s, f);
      assert ms[0] == f(s[0]) && ms[1..] == MapSeq(s[1..], f);
      SortedParts(s, ka);
      if ka(x) < ka(s[0]) {
        InsertMapCommute(x, s[1..], f, ka, kb);
        var r := InsertDesc(x, s[1..], ka);
        assert InsertDesc(x, s, ka) == [s[0]] + r;
        assert InsertDesc(f(x), ms, kb) == [f(s[0])] + InsertDesc(f(x), ms[1..], kb);
        assert MapSeq([s[0]] + r, f) == [f(s[0])] + MapSeq(r, f);
      } else {
        assert InsertDesc(x, s, ka) == [x] + s;
        assert InsertDesc(f(x), ms, kb) == [f(x)] + ms;
        assert MapSeq([x] + s, f) == [f(x)] + ms;
      }
    }
  }

  /** `s.map(f).sort(byKey)` equals `s.sort(byKey).map(f)` when f keeps the key. */
  lemma {:induction false} SortMapCommute<A, B>(s: seq<A>, f: A -> B, ka: A -> real, kb: B -> real)
    requires forall y :: kb(f(y)) == ka(y)
    ensures SortDesc(MapSeq(s, f), kb) == MapSeq(SortDesc(s, ka), f)
  {
    if s != [] {
      SortMapCommute(s[1..], f, ka, kb);
      assert MapSeq(s, f)[1..] == MapSeq(s[1..], f);
      InsertMapCommute(s[0], SortDesc(s[1..], ka), f, ka, kb);
    }
  }

  lemma TakeMapCommute<A, B>(s: seq<A>, n: nat, f: A -> B)
    ensures Take(MapSeq(s, f), n) == MapSeq(Take(s, n), f)
  {
  }

  /** `s.findIndex(p)`, with -1 as None. */
  function FindFirst<T>(s: seq<T>, p: T -> bool): (r: Option<nat>)
    ensures r.None? <==> forall i :: 0 <= i < |s| ==> !p(s[i])
    ensures r.Some? ==> r.value < |s| && p(s[r.value]) && forall i :: 0 <= i < r.value ==> !p(s[i])
  {
    if s == [] then None
    else if p(s[0]) then Some(0)
    else
      var r := FindFirst(s[1..], p);
      if r.None? then None else Some(r.value + 1)
  }
}
