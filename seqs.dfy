// The array operations the engine is written with (`filter`, `reduce` over a
// sum, `sort` with a numeric comparator), stated once over sequences.

module Seqs {

  /** `r` is obtained from `s` by deleting elements, keeping order. */
  ghost predicate IsSubsequence<T>(r: seq<T>, s: seq<T>)
    decreases |s|
  {
    if |r| == 0 then true
    else if |s| == 0 then false
    else (r[0] == s[0] && IsSubsequence(r[1..], s[1..])) || IsSubsequence(r, s[1..])
  }

  /** Number of elements of `s` that satisfy `p`. */
  function Count<T>(p: T -> bool, s: seq<T>): (n: nat)
    ensures n <= |s|
  {
    if |s| == 0 then 0 else (if p(s[0]) then 1 else 0) + Count(p, s[1..])
  }

  /** `Array.prototype.filter`: the elements that satisfy `p`, in their order,
      duplicates kept. */
  function Filter<T(==,!new)>(p: T -> bool, s: seq<T>): (r: seq<T>)
    ensures forall x :: x in r <==> x in s && p(x)
    ensures IsSubsequence(r, s)
    ensures |r| == Count(p, s)
  {
    if |s| == 0 then []
    else if p(s[0]) then [s[0]] + Filter(p, s[1..])
    else Filter(p, s[1..])
  }

  /** `reduce((sum, x) => sum + f(x), 0)`. */
  function Sum<T>(f: T -> real, s: seq<T>): real {
    if |s| == 0 then 0.0 else f(s[0]) + Sum(f, s[1..])
  }

  lemma {:induction false} SumNonNegative<T>(f: T -> real, s: seq<T>)
    requires forall x :: x in s ==> f(x) >= 0.0
    ensures Sum(f, s) >= 0.0
  {
    if |s| > 0 {
      SumNonNegative(f, s[1..]);
    }
  }

  /** A sum of terms that are each no larger gives a sum no larger. */
  lemma {:induction false} SumPointwiseLe<T>(f: T -> real, g: T -> real, s: seq<T>)
    requires forall x :: x in s ==> f(x) <= g(x)
    ensures Sum(f, s) <= Sum(g, s)
  {
    if |s| > 0 {
      SumPointwiseLe(f, g, s[1..]);
    }
  }

  /** Filtering by a weaker predicate never lowers a sum of non-negative terms. */
  lemma {:induction false} SumFilterMono<T(!new)>(f: T -> real, p: T -> bool, q: T -> bool, s: seq<T>)
    requires forall x :: x in s && p(x) ==> q(x)
    requires forall x :: x in s ==> f(x) >= 0.0
    ensures Sum(f, Filter(p, s)) <= Sum(f, Filter(q, s))
  {
    if |s| > 0 {
      SumFilterMono(f, p, q, s[1..]);
    }
  }

  /** Filtering by a disjunction of disjoint predicates splits the sum. */
  lemma {:induction false} SumFilterSplit<T(!new)>(f: T -> real, p: T -> bool, q: T -> bool, pq: T -> bool, s: seq<T>)
    requires forall x :: x in s ==> (pq(x) <==> p(x) || q(x))
    requires forall x :: x in s ==> !(p(x) && q(x))
    ensures Sum(f, Filter(pq, s)) == Sum(f, Filter(p, s)) + Sum(f, Filter(q, s))
  {
    if |s| > 0 {
      SumFilterSplit(f, p, q, pq, s[1..]);
    }
  }

  /** The same for counts. */
  lemma {:induction false} CountSplit<T>(p: T -> bool, q: T -> bool, pq: T -> bool, s: seq<T>)
    requires forall x :: x in s ==> (pq(x) <==> p(x) || q(x))
    requires forall x :: x in s ==> !(p(x) && q(x))
    ensures Count(pq, s) == Count(p, s) + Count(q, s)
  {
    if |s| > 0 {
      CountSplit(p, q, pq, s[1..]);
    }
  }

  lemma {:induction false} SumAppend<T>(f: T -> real, x: seq<T>, y: seq<T>)
    ensures Sum(f, x + y) == Sum(f, x) + Sum(f, y)
  {
    if |x| > 0 {
      assert (x + y)[1..] == x[1..] + y;
      SumAppend(f, x[1..], y);
    } else {
      assert x + y == y;
    }
  }

  /** Reordering the terms does not change a sum. */
  lemma {:induction false} SumPermutation<T>(f: T -> real, a: seq<T>, b: seq<T>)
    requires multiset(a) == multiset(b)
    ensures Sum(f, a) == Sum(f, b)
    decreases |a|
  {
    if |a| == 0 {
      assert |b| == |multiset(b)| == 0;
    } else {
      assert a[0] in multiset(b);
      var k :| 0 <= k < |b| && b[k] == a[0];
      var rest := b[..k] + b[k+1..];
      assert b == b[..k] + [b[k]] + b[k+1..];
      assert a == [a[0]] + a[1..];
      assert multiset(b) == multiset(b[..k]) + multiset([b[k]]) + multiset(b[k+1..]);
      assert multiset(rest) == multiset(b[..k]) + multiset(b[k+1..]);
      assert multiset(a) == multiset([a[0]]) + multiset(a[1..]);
      assert multiset(a[1..]) == multiset(a) - multiset{a[0]};
      assert multiset(rest) == multiset(b) - multiset{b[k]};
      assert multiset(a[1..]) == multiset(rest);
      SumPermutation(f, a[1..], rest);
      SumAppend(f, b[..k] + [b[k]], b[k+1..]);
      SumAppend(f, b[..k], [b[k]]);
      SumAppend(f, b[..k], b[k+1..]);
    }
  }

  /** Counting over a concatenation adds the counts. */
  lemma {:induction false} CountAppend<T>(p: T -> bool, x: seq<T>, y: seq<T>)
    ensures Count(p, x + y) == Count(p, x) + Count(p, y)
  {
    if |x| > 0 {
      assert (x + y)[1..] == x[1..] + y;
      CountAppend(p, x[1..], y);
    } else {
      assert x + y == y;
    }
  }

  /** Every element satisfies `p`: all are counted. */
  lemma {:induction false} CountAll<T>(p: T -> bool, s: seq<T>)
    requires forall k :: 0 <= k < |s| ==> p(s[k])
    ensures Count(p, s) == |s|
  {
    if |s| > 0 {
      CountAll(p, s[1..]);
    }
  }

  /** No element satisfies `p`: none is counted. */
  lemma {:induction false} CountNone<T>(p: T -> bool, s: seq<T>)
    requires forall k :: 0 <= k < |s| ==> !p(s[k])
    ensures Count(p, s) == 0
  {
    if |s| > 0 {
      CountNone(p, s[1..]);
    }
  }

  /** Reordering the elements does not change a count. */
  lemma {:induction false} CountPermutation<T>(p: T -> bool, a: seq<T>, b: seq<T>)
    requires multiset(a) == multiset(b)
    ensures Count(p, a) == Count(p, b)
    decreases |a|
  {
    if |a| == 0 {
      assert |b| == |multiset(b)| == 0;
    } else {
      assert a[0] in multiset(b);
      var k :| 0 <= k < |b| && b[k] == a[0];
      var rest := b[..k] + b[k+1..];
      assert b == b[..k] + [b[k]] + b[k+1..];
      assert a == [a[0]] + a[1..];
      assert multiset(a[1..]) == multiset(a) - multiset{a[0]};
      assert multiset(b) == multiset(b[..k]) + multiset([b[k]]) + multiset(b[k+1..]);
      assert multiset(rest) == multiset(b) - multiset{b[k]};
      CountPermutation(p, a[1..], rest);
      CountAppend(p, b[..k] + [b[k]], b[k+1..]);
      CountAppend(p, b[..k], [b[k]]);
      CountAppend(p, b[..k], b[k+1..]);
    }
  }

  /** A predicate and its negation count every element exactly once. */
  lemma {:induction false} CountComplement<T>(p: T -> bool, q: T -> bool, s: seq<T>)
    requires forall x :: x in s ==> (q(x) <==> !p(x))
    ensures Count(p, s) + Count(q, s) == |s|
  {
    if |s| > 0 {
      CountComplement(p, q, s[1..]);
    }
  }

  /** Filtering a concatenation filters each part. */
  lemma {:induction false} FilterAppend<T(!new)>(p: T -> bool, x: seq<T>, y: seq<T>)
    ensures Filter(p, x + y) == Filter(p, x) + Filter(p, y)
  {
    if |x| > 0 {
      assert (x + y)[1..] == x[1..] + y;
      FilterAppend(p, x[1..], y);
    } else {
      assert x + y == y;
    }
  }

  /** Appending one element adds its term to a filtered sum when it passes
      the filter, and nothing otherwise. */
  lemma SumFilterSnoc<T(!new)>(f: T -> real, p: T -> bool, s: seq<T>, x: T)
    ensures Sum(f, Filter(p, s + [x])) == Sum(f, Filter(p, s)) + (if p(x) then f(x) else 0.0)
  {
    FilterAppend(p, s, [x]);
    SumAppend(f, Filter(p, s), Filter(p, [x]));
  }

  /** Predicates that agree on every element filter alike. */
  lemma {:induction false} FilterAgree<T(!new)>(p: T -> bool, q: T -> bool, s: seq<T>)
    requires forall x :: x in s ==> (p(x) <==> q(x))
    ensures Filter(p, s) == Filter(q, s)
  {
    if |s| > 0 {
      FilterAgree(p, q, s[1..]);
    }
  }

  /** Keys ascending: what `sort((a, b) => key(a) - key(b))` leaves behind. */
  ghost predicate SortedBy<T>(s: seq<T>, key: T -> real) {
    forall i, j :: 0 <= i < j < |s| ==> key(s[i]) <= key(s[j])
  }

  /** The position of a smallest key in `a[from..]`. */
  method MinKeyIndex<T>(a: array<T>, key: T -> real, from: nat) returns (m: nat)
    requires from < a.Length
    ensures from <= m < a.Length
    ensures forall q :: from <= q < a.Length ==> key(a[m]) <= key(a[q])
  {
    m := from;
    var j := from + 1;
    while j < a.Length
      invariant from <= m < a.Length
      invariant from + 1 <= j <= a.Length
      invariant forall q :: from <= q < j ==> key(a[m]) <= key(a[q])
    {
      if key(a[j]) < key(a[m]) {
        m := j;
      }
      j := j + 1;
    }
  }

  method Swap<T>(a: array<T>, i: nat, j: nat)
    requires i < a.Length && j < a.Length
    modifies a
    ensures a[i] == old(a[j]) && a[j] == old(a[i])
    ensures forall k :: 0 <= k < a.Length && k != i && k != j ==> a[k] == old(a[k])
    ensures multiset(a[..]) == old(multiset(a[..]))
  {
    a[i], a[j] := a[j], a[i];
  }

  /** `Array.prototype.sort` with a numeric comparator, in place. Only the
      order of the keys is promised: elements with equal keys may end in any
      order. */
  method SortByKey<T>(a: array<T>, key: T -> real)
    modifies a
    ensures SortedBy(a[..], key)
    ensures multiset(a[..]) == old(multiset(a[..]))
  {
    var i := 0;
    while i < a.Length
      invariant 0 <= i <= a.Length
      invariant forall p, q :: 0 <= p < q < i ==> key(a[p]) <= key(a[q])
      invariant forall p, q :: 0 <= p < i <= q < a.Length ==> key(a[p]) <= key(a[q])
      invariant multiset(a[..]) == old(multiset(a[..]))
    {
      var m := MinKeyIndex(a, key, i);
      Swap(a, i, m);
      i := i + 1;
    }
  }

  /** Two positions holding the same element make it occur at least twice. */
  lemma TwoPositions<T>(s: seq<T>, i: nat, j: nat)
    requires i < j < |s| && s[i] == s[j]
    ensures multiset(s)[s[i]] >= 2
  {
    assert s == s[..j] + [s[j]] + s[j+1..];
    assert s[..j][i] == s[i];
    assert s[i] in multiset(s[..j]);
  }

  /** In a sequence without repeated elements every element occurs once. */
  lemma {:induction false} DistinctOnce<T>(s: seq<T>, x: T)
    requires forall i, j :: 0 <= i < j < |s| ==> s[i] != s[j]
    ensures multiset(s)[x] <= 1
  {
    if |s| > 0 {
      assert s == [s[0]] + s[1..];
      DistinctOnce(s[1..], x);
      if x == s[0] {
        assert x !in s[1..];
      }
    }
  }
}
