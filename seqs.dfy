/** The array operations the client uses (`filter`, `findIndex`, `find`, `map`, `includes`),
    as functions on sequences, with the facts the rest of the model relies on. */
module Seqs {
  import opened Wrappers

  /** `Array.prototype.filter`: the elements that satisfy `f`, in their original order. */
  function Filter<T>(f: T -> bool, s: seq<T>): (r: seq<T>)
    ensures |r| <= |s|
    ensures forall i :: 0 <= i < |r| ==> f(r[i])
    ensures forall x :: x in r ==> x in s
  {
    if s == [] then []
    else if f(s[0]) then [s[0]] + Filter(f, s[1..])
    else Filter(f, s[1..])
  }

  /** An element survives the filter exactly when it is in the input and satisfies `f`. */
  lemma {:induction false} FilterMembership<T>(f: T -> bool, s: seq<T>, x: T)
    ensures x in Filter(f, s) <==> x in s && f(x)
  {
    if s != [] {
      FilterMembership(f, s[1..], x);
      assert s == [s[0]] + s[1..];
    }
  }

  /** Filtering keeps every occurrence of a kept element and drops every occurrence of the others. */
  lemma {:induction false} FilterMultiplicity<T>(f: T -> bool, s: seq<T>, x: T)
    ensures multiset(Filter(f, s))[x] == if f(x) then multiset(s)[x] else 0
  {
    if s != [] {
      FilterMultiplicity(f, s[1..], x);
      assert s == [s[0]] + s[1..];
      assert multiset(s) == multiset([s[0]]) + multiset(s[1..]);
    }
  }

  /** Filtering distributes over concatenation, so the relative order of the kept elements
      is that of the input. */
  lemma {:induction false} FilterConcat<T>(f: T -> bool, a: seq<T>, b: seq<T>)
    ensures Filter(f, a + b) == Filter(f, a) + Filter(f, b)
  {
    if a == [] {
      assert a + b == b;
    } else {
      FilterConcat(f, a[1..], b);
      assert (a + b)[1..] == a[1..] + b;
    }
  }

  /** A filter that every element passes is the identity. */
  lemma {:induction false} FilterKeepsAll<T>(f: T -> bool, s: seq<T>)
    requires forall i :: 0 <= i < |s| ==> f(s[i])
    ensures Filter(f, s) == s
  {
    if s != [] {
      FilterKeepsAll(f, s[1..]);
    }
  }

  /** A filter that no element passes yields the empty sequence. */
  lemma {:induction false} FilterDropsAll<T>(f: T -> bool, s: seq<T>)
    requires forall i :: 0 <= i < |s| ==> !f(s[i])
    ensures Filter(f, s) == []
  {
    if s != [] {
      FilterDropsAll(f, s[1..]);
    }
  }

  /** Two successive filters are one filter by the conjunction, applied to the original order. */
  lemma {:induction false} FilterCompose<T>(f: T -> bool, g: T -> bool, both: T -> bool, s: seq<T>)
    requires forall x :: both(x) == (f(x) && g(x))
    ensures Filter(g, Filter(f, s)) == Filter(both, s)
  {
    if s != [] {
      FilterCompose(f, g, both, s[1..]);
    }
  }

  /** `Array.prototype.findIndex`: the first index whose element satisfies `f`, or -1. */
  /** Filters by pointwise-equal predicates agree. */
  lemma {:induction false} FilterExtensional<T>(f: T -> bool, g: T -> bool, s: seq<T>)
    requires forall x :: f(x) == g(x)
    ensures Filter(f, s) == Filter(g, s)
  {
    if s != [] {
      FilterExtensional(f, g, s[1..]);
    }
  }

  /** `Array.prototype.findIndex`: the position of the first element that satisfies `f`, or -1. */
  function FindIndex<T>(f: T -> bool, s: seq<T>): (r: int)
    ensures -1 <= r < |s|
    ensures r >= 0 ==> f(s[r]) && forall j :: 0 <= j < r ==> !f(s[j])
    ensures r == -1 <==> forall j :: 0 <= j < |s| ==> !f(s[j])
  {
    if s == [] then -1
    else if f(s[0]) then 0
    else
      var k := FindIndex(f, s[1..]);
      if k == -1 then -1 else k + 1
  }

  /** `Array.prototype.find`: the first element that satisfies `f`, if any. */
  function Find<T>(f: T -> bool, s: seq<T>): (r: Option<T>)
    ensures r.Some? <==> exists i :: 0 <= i < |s| && f(s[i])
    ensures r.Some? ==> r.value == s[FindIndex(f, s)]
  {
    var k := FindIndex(f, s);
    if k == -1 then None else Some(s[k])
  }

  /** `Array.prototype.map`. */
  function MapSeq<T, U>(f: T -> U, s: seq<T>): (r: seq<U>)
    ensures |r| == |s|
    ensures forall i :: 0 <= i < |s| ==> r[i] == f(s[i])
  {
    seq(|s|, i requires 0 <= i < |s| => f(s[i]))
  }

  /** No value occurs twice. */
  predicate NoDuplicates<T(==)>(s: seq<T>)
  {
    forall i, j :: 0 <= i < j < |s| ==> s[i] != s[j]
  }

  /** Any filter keeps a duplicate-free sequence duplicate-free. */
  lemma {:induction false} FilterKeepsNoDuplicates<T>(f: T -> bool, s: seq<T>)
    requires NoDuplicates(s)
    ensures NoDuplicates(Filter(f, s))
  {
    if s != [] {
      FilterKeepsNoDuplicates(f, s[1..]);
      if f(s[0]) {
        FilterMembership(f, s[1..], s[0]);
        assert s[0] !in s[1..];
      }
    }
  }
}
