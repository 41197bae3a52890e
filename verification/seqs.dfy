/** Sequence helpers shared by the page models: JavaScript's `Array.filter`,
    the first-occurrence de-duplication of `[...new Set(xs)]`, and counting. */
module Seqs {

  /** `a` can be obtained from `b` by deleting elements (order is kept). */
  predicate IsSubsequence<T(==)>(a: seq<T>, b: seq<T>)
    decreases |b|
  {
    if a == [] then true
    else if b == [] then false
    else (a[0] == b[0] && IsSubsequence(a[1..], b[1..])) || IsSubsequence(a, b[1..])
  }

  /** No element occurs twice. */
  predicate Distinct<T(==)>(s: seq<T>)
  {
    forall i, j :: 0 <= i < j < |s| ==> s[i] != s[j]
  }

  /** `Array.prototype.filter`: keeps, in order, the elements satisfying `p`. */
  function Filter<T(!new)>(p: T -> bool, s: seq<T>): (r: seq<T>)
    ensures |r| <= |s|
    ensures IsSubsequence(r, s)
    ensures forall i :: 0 <= i < |r| ==> r[i] in s && p(r[i])
    ensures forall i :: 0 <= i < |s| && p(s[i]) ==> s[i] in r
    ensures forall x :: multiset(r)[x] == if p(x) then multiset(s)[x] else 0
  {
    if s == [] then []
    else
      assert s == [s[0]] + s[1..];
      assert multiset(s) == multiset{s[0]} + multiset(s[1..]);
      if p(s[0]) then [s[0]] + Filter(p, s[1..])
      else Filter(p, s[1..])
  }

  /** A predicate that holds of every element keeps the whole sequence. */
  lemma {:induction false} FilterKeepsAll<T(!new)>(p: T -> bool, s: seq<T>)
    requires forall i :: 0 <= i < |s| ==> p(s[i])
    ensures Filter(p, s) == s
  {
    if s != [] {
      var rest := s[1..];
      forall i | 0 <= i < |rest| ensures p(rest[i]) { assert rest[i] == s[i + 1]; }
      FilterKeepsAll(p, rest);
      calc {
        Filter(p, s);
        { assert p(s[0]); }
        [s[0]] + Filter(p, rest);
        [s[0]] + rest;
        s;
      }
    }
  }

  /** Index of the first occurrence of `x` in `s`. */
  function IndexOf<T(==)>(s: seq<T>, x: T): (k: nat)
    requires x in s
    ensures k < |s| && s[k] == x
    ensures forall j :: 0 <= j < k ==> s[j] != x
  {
    if s[0] == x then 0 else 1 + IndexOf(s[1..], x)
  }

  /** The elements of `s` in order of first occurrence, each once: the
      iteration order of a JavaScript `Set` or `Map` filled from `s`. */
  function Dedup<T(==,!new)>(s: seq<T>): (r: seq<T>)
    ensures Distinct(r)
    ensures forall x :: x in r <==> x in s
    decreases |s|
  {
    if s == [] then []
    else
      var d := Dedup(s[..|s| - 1]);
      if s[|s| - 1] in d then d else d + [s[|s| - 1]]
  }

  /** Appending keeps the first occurrence of an element already present. */
  lemma {:induction false} IndexOfAppend<T>(s: seq<T>, y: T, x: T)
    requires x in s
    ensures IndexOf(s + [y], x) == IndexOf(s, x)
  {
    var k := IndexOf(s, x);
    var t := s + [y];
    assert t[k] == x;
    assert forall j :: 0 <= j < k ==> t[j] == s[j];
  }

  /** `Dedup` lists the elements in the order of their first occurrence. */
  lemma {:induction false} DedupFirstOccurrenceOrder<T(!new)>(s: seq<T>)
    ensures forall i, j :: 0 <= i < j < |Dedup(s)| ==> IndexOf(s, Dedup(s)[i]) < IndexOf(s, Dedup(s)[j])
  {
    if s != [] {
      var p, y := s[..|s| - 1], s[|s| - 1];
      assert s == p + [y];
      DedupFirstOccurrenceOrder(p);
      var d := Dedup(p);
      forall x | x in d
        ensures IndexOf(s, x) == IndexOf(p, x) < |p|
      {
        IndexOfAppend(p, y, x);
      }
      if y !in d {
        assert IndexOf(s, y) == |p|;
      }
    }
  }

  /** Number of occurrences of `x` in `s`. */
  function Count<T(==)>(s: seq<T>, x: T): (n: nat)
    ensures n <= |s|
    ensures n == 0 <==> x !in s
    decreases |s|
  {
    if s == [] then 0
    else Count(s[..|s| - 1], x) + (if s[|s| - 1] == x then 1 else 0)
  }

  /** Appending to a sequence adds the new element at the end of its
      de-duplication, unless it is already there. */
  lemma {:induction false} DedupSnoc<T(!new)>(s: seq<T>, x: T)
    ensures Dedup(s + [x]) == if x in Dedup(s) then Dedup(s) else Dedup(s) + [x]
  {
    assert (s + [x])[..|s|] == s;
  }

  /** Appending `x` adds one to its count and leaves the other counts alone. */
  lemma {:induction false} CountSnoc<T>(s: seq<T>, x: T, y: T)
    ensures Count(s + [x], y) == Count(s, y) + (if x == y then 1 else 0)
  {
    assert (s + [x])[..|s|] == s;
  }

  /** Sum, over `keys`, of the number of occurrences of each key in `s`. */
  function SumOfCounts<T(==)>(keys: seq<T>, s: seq<T>): nat
    decreases |keys|
  {
    if keys == [] then 0 else SumOfCounts(keys[..|keys| - 1], s) + Count(s, keys[|keys| - 1])
  }

  /** In a sequence without repetitions an element present occurs once. */
  lemma {:induction false} CountDistinct<T>(keys: seq<T>, y: T)
    requires Distinct(keys) && y in keys
    ensures Count(keys, y) == 1
  {
    var p, z := keys[..|keys| - 1], keys[|keys| - 1];
    if z == y {
      assert y !in p by {
        forall i | 0 <= i < |p| ensures p[i] != y { assert keys[i] == p[i]; }
      }
    } else {
      assert y in p by { var i :| 0 <= i < |keys| && keys[i] == y; assert i < |p| && p[i] == y; }
      CountDistinct(p, y);
    }
  }

  /** Appending `y` to `s` adds, to the sum of counts, the number of times
      `y` is a key. */
  lemma {:induction false} SumOfCountsSnoc<T>(keys: seq<T>, s: seq<T>, y: T)
    ensures SumOfCounts(keys, s + [y]) == SumOfCounts(keys, s) + Count(keys, y)
    decreases |keys|
  {
    if keys != [] {
      SumOfCountsSnoc(keys[..|keys| - 1], s, y);
      CountSnoc(s, y, keys[|keys| - 1]);
    }
  }

  /** Counting every distinct element of `s` accounts for each element of `s`
      exactly once. */
  lemma {:induction false} CountsOverDedup<T(!new)>(s: seq<T>)
    ensures SumOfCounts(Dedup(s), s) == |s|
    decreases |s|
  {
    if s != [] {
      var p, y := s[..|s| - 1], s[|s| - 1];
      assert s == p + [y];
      var d := Dedup(p);
      CountsOverDedup(p);
      SumOfCountsSnoc(d, p, y);
      DedupSnoc(p, y);
      if y in d {
        CountDistinct(d, y);
      } else {
        assert (d + [y])[..|d|] == d;
        CountSnoc(p, y, y);
        SumOfCountsSnoc(d, p, y);
      }
    }
  }
}
