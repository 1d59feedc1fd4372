/** Sequence utilities shared by the counting and filtering code of the pages:
    `Array.prototype.filter`, `[...new Set(xs)]`, and counting occurrences. */
module Tally {

  /** `xs.filter(p)`: the elements satisfying `p`, in their original order. */
  function Filter<T>(xs: seq<T>, p: T -> bool): (r: seq<T>)
    ensures |r| <= |xs|
    ensures forall i :: 0 <= i < |r| ==> r[i] in xs && p(r[i])
    ensures forall i :: 0 <= i < |xs| && p(xs[i]) ==> xs[i] in r
  {
    if xs == [] then []
    else
      if p(xs[0]) then [xs[0]] + Filter(xs[1..], p)
      else Filter(xs[1..], p)
  }

  /** A filter keeps each satisfying element as many times as it occurs, and
      drops every other element entirely. */
  lemma {:induction false} FilterMultiset<T>(xs: seq<T>, p: T -> bool)
    ensures forall i :: 0 <= i < |xs| ==>
              multiset(Filter(xs, p))[xs[i]] == if p(xs[i]) then multiset(xs)[xs[i]] else 0
  {
    if xs != [] {
      FilterMultiset(xs[1..], p);
      assert xs == [xs[0]] + xs[1..];
      forall i | 0 <= i < |xs|
        ensures multiset(Filter(xs, p))[xs[i]] == if p(xs[i]) then multiset(xs)[xs[i]] else 0
      {
        if i > 0 {
          assert xs[i] == xs[1..][i - 1];
        }
        var x := xs[i];
        if x !in xs[1..] {
          assert x !in Filter(xs[1..], p);
        }
      }
    }
  }

  /** `r` is obtained from `s` by deleting elements, keeping the order of the rest. */
  predicate IsSubsequence<T(==)>(r: seq<T>, s: seq<T>)
    decreases |s|
  {
    if r == [] then true
    else if s == [] then false
    else if r[0] == s[0] then IsSubsequence(r[1..], s[1..])
    else IsSubsequence(r, s[1..])
  }

  /** A filter keeps the order of what it keeps. */
  lemma {:induction false} FilterIsSubsequence<T>(xs: seq<T>, p: T -> bool)
    ensures IsSubsequence(Filter(xs, p), xs)
  {
    if xs != [] {
      FilterIsSubsequence(xs[1..], p);
      if p(xs[0]) {
        assert Filter(xs, p)[1..] == Filter(xs[1..], p);
      }
    }
  }

  /** A filter whose predicate holds everywhere returns its input. */
  lemma {:induction false} FilterAll<T>(xs: seq<T>, p: T -> bool)
    requires forall i :: 0 <= i < |xs| ==> p(xs[i])
    ensures Filter(xs, p) == xs
  {
    if xs != [] {
      FilterAll(xs[1..], p);
      assert [xs[0]] + xs[1..] == xs;
    }
  }

  /** A filter whose predicate holds nowhere returns nothing. */
  lemma {:induction false} FilterNone<T>(xs: seq<T>, p: T -> bool)
    requires forall i :: 0 <= i < |xs| ==> !p(xs[i])
    ensures Filter(xs, p) == []
  {
    if xs != [] {
      FilterNone(xs[1..], p);
    }
  }

  /** Filtering a sequence filters its head, then its tail. */
  lemma FilterCons<T>(x: T, xs: seq<T>, p: T -> bool)
    ensures Filter([x] + xs, p) == (if p(x) then [x] else []) + Filter(xs, p)
  {
    assert ([x] + xs)[0] == x && ([x] + xs)[1..] == xs;
  }

  /** Filtering a concatenation filters each part. */
  lemma {:induction false} FilterAppend<T>(xs: seq<T>, ys: seq<T>, p: T -> bool)
    ensures Filter(xs + ys, p) == Filter(xs, p) + Filter(ys, p)
  {
    if xs == [] {
      assert xs + ys == ys;
    } else {
      var x, tail := xs[0], xs[1..];
      var head := if p(x) then [x] else [];
      assert xs == [x] + tail;
      assert xs + ys == [x] + (tail + ys);
      FilterCons(x, tail + ys, p);
      FilterCons(x, tail, p);
      FilterAppend(tail, ys, p);
      assert head + (Filter(tail, p) + Filter(ys, p)) == (head + Filter(tail, p)) + Filter(ys, p);
    }
  }

  /** Number of occurrences of `x` in `xs`. */
  function Occurrences<T(==)>(xs: seq<T>, x: T): (n: nat)
    ensures n <= |xs|
    ensures n > 0 <==> x in xs
  {
    if xs == [] then 0
    else (if xs[0] == x then 1 else 0) + Occurrences(xs[1..], x)
  }

  /** No element occurs twice. */
  predicate NoDuplicates<T(==)>(xs: seq<T>)
  {
    forall i, j :: 0 <= i < j < |xs| ==> xs[i] != xs[j]
  }

  /** `[...new Set(xs)]`: each distinct element once, in order of first occurrence. */
  function Distinct<T(==)>(xs: seq<T>): (d: seq<T>)
    ensures NoDuplicates(d)
    ensures forall i :: 0 <= i < |d| ==> d[i] in xs
    ensures forall i :: 0 <= i < |xs| ==> xs[i] in d
    decreases |xs|
  {
    if xs == [] then []
    else
      var init := Distinct(xs[..|xs| - 1]);
      var last := xs[|xs| - 1];
      assert xs == xs[..|xs| - 1] + [last];
      if last in init then init else init + [last]
  }

  /** The index of the first occurrence of `x` in `xs`. */
  function FirstIndex<T(==)>(xs: seq<T>, x: T): (k: nat)
    requires x in xs
    ensures k < |xs| && xs[k] == x && x !in xs[..k]
  {
    if xs[0] == x then 0
    else
      var k := 1 + FirstIndex(xs[1..], x);
      assert xs[..k] == [xs[0]] + xs[1..][..k - 1];
      k
  }

  /** Extending a sequence does not move the first occurrence of an element it already holds. */
  lemma {:induction false} FirstIndexOfPrefix<T>(xs: seq<T>, ys: seq<T>, x: T)
    requires x in xs
    ensures FirstIndex(xs + ys, x) == FirstIndex(xs, x)
  {
    if xs[0] != x {
      assert (xs + ys)[1..] == xs[1..] + ys;
      FirstIndexOfPrefix(xs[1..], ys, x);
    }
  }

  /** `Distinct` lists the elements in the order of their first occurrence. */
  lemma {:induction false} DistinctInFirstOccurrenceOrder<T>(xs: seq<T>)
    ensures forall i, j :: 0 <= i < j < |Distinct(xs)| ==>
              FirstIndex(xs, Distinct(xs)[i]) < FirstIndex(xs, Distinct(xs)[j])
    decreases |xs|
  {
    if xs != [] {
      var init, last := xs[..|xs| - 1], xs[|xs| - 1];
      assert xs == init + [last];
      DistinctInFirstOccurrenceOrder(init);
      var d := Distinct(init);
      forall y | y in init
        ensures FirstIndex(xs, y) == FirstIndex(init, y) < |init|
      {
        FirstIndexOfPrefix(init, [last], y);
      }
      if last !in d {
        assert last !in init;
        assert FirstIndex(xs, last) == |init|;
        assert Distinct(xs) == d + [last];
      }
    }
  }

  /** Sum, over the keys `ds`, of how often each occurs in `xs`. */
  function SumOccurrences<T(==)>(xs: seq<T>, ds: seq<T>): nat
  {
    if ds == [] then 0 else Occurrences(xs, ds[0]) + SumOccurrences(xs, ds[1..])
  }

  /** Counting every element of `xs` under a duplicate-free list of keys that
      covers all of them counts each element exactly once. */
  lemma {:induction false} SumOverKeys<T>(xs: seq<T>, ds: seq<T>)
    requires NoDuplicates(ds)
    requires forall i :: 0 <= i < |xs| ==> xs[i] in ds
    ensures SumOccurrences(xs, ds) == |xs|
  {
    if xs != [] {
      SumOverKeys(xs[1..], ds);
      SumSplitsHead(xs, ds);
    } else {
      SumOfEmpty(ds);
    }
  }

  lemma {:induction false} SumOfEmpty<T>(ds: seq<T>)
    ensures SumOccurrences([], ds) == 0
  {
    if ds != [] { SumOfEmpty(ds[1..]); }
  }

  /** Peeling the head element off `xs` takes one from the sum when the head is a key. */
  lemma {:induction false} SumSplitsHead<T>(xs: seq<T>, ds: seq<T>)
    requires xs != [] && NoDuplicates(ds)
    ensures SumOccurrences(xs, ds)
         == SumOccurrences(xs[1..], ds) + (if xs[0] in ds then 1 else 0)
  {
    if ds != [] {
      SumSplitsHead(xs, ds[1..]);
      assert xs[0] in ds <==> xs[0] == ds[0] || xs[0] in ds[1..];
      assert xs[0] == ds[0] ==> xs[0] !in ds[1..];
    }
  }

  /** The distinct keys of `xs` account for all of its elements. */
  lemma DistinctCountsAll<T>(xs: seq<T>)
    ensures SumOccurrences(xs, Distinct(xs)) == |xs|
  {
    SumOverKeys(xs, Distinct(xs));
  }

  /** Appending one element adds one occurrence exactly when it is the element counted. */
  lemma {:induction false} OccurrencesAppend<T>(xs: seq<T>, y: T, x: T)
    ensures Occurrences(xs + [y], x) == Occurrences(xs, x) + (if y == x then 1 else 0)
  {
    if xs == [] {
      assert xs + [y] == [y];
    } else {
      OccurrencesAppend(xs[1..], y, x);
      assert (xs + [y])[1..] == xs[1..] + [y];
    }
  }

  /** Sum of the values a map gives to the keys `ks` (each key must be in the map). */
  function SumValues<K>(m: map<K, nat>, ks: seq<K>): nat
    requires forall i :: 0 <= i < |ks| ==> ks[i] in m
  {
    if ks == [] then 0 else m[ks[0]] + SumValues(m, ks[1..])
  }

  /** A map that counts the occurrences of its keys sums, over those keys, to the
      number of occurrences of all of them. */
  lemma {:induction false} SumValuesOfCounts<K>(m: map<K, nat>, xs: seq<K>, ks: seq<K>)
    requires forall i :: 0 <= i < |ks| ==> ks[i] in m && m[ks[i]] == Occurrences(xs, ks[i])
    ensures SumValues(m, ks) == SumOccurrences(xs, ks)
  {
    if ks != [] {
      SumValuesOfCounts(m, xs, ks[1..]);
    }
  }
}
