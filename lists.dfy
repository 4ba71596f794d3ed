/** List transformations the app performs with `Array.prototype.filter` and
    `Array.prototype.reduce`: filtering, and the first maximum or minimum that
    a strict-comparison `reduce` keeps. */
module Lists {

  /** `s.filter(p)`. */
  function Filter<T>(s: seq<T>, p: T -> bool): (r: seq<T>)
    ensures |r| <= |s|
    decreases |s|
  {
    if s == [] then []
    else if p(s[0]) then [s[0]] + Filter(s[1..], p)
    else Filter(s[1..], p)
  }

  /** The filter keeps exactly the elements that satisfy `p`. */
  lemma {:induction false} FilterMembers<T>(s: seq<T>, p: T -> bool)
    ensures forall x :: x in Filter(s, p) <==> x in s && p(x)
    decreases |s|
  {
    if s != [] {
      FilterMembers(s[1..], p);
      assert s == [s[0]] + s[1..];
    }
  }

  /** Filtering distributes over concatenation, so it keeps the relative order. */
  lemma {:induction false} FilterAppend<T>(a: seq<T>, b: seq<T>, p: T -> bool)
    ensures Filter(a + b, p) == Filter(a, p) + Filter(b, p)
    decreases |a|
  {
    if a == [] {
      assert a + b == b;
    } else {
      assert (a + b)[0] == a[0];
      assert (a + b)[1..] == a[1..] + b;
      FilterAppend(a[1..], b, p);
    }
  }

  /** A filter that every element passes changes nothing. */
  lemma {:induction false} FilterKeepsAll<T>(s: seq<T>, p: T -> bool)
    requires forall i :: 0 <= i < |s| ==> p(s[i])
    ensures Filter(s, p) == s
    decreases |s|
  {
    if s != [] {
      FilterKeepsAll(s[1..], p);
    }
  }

  /** A filter that no element passes leaves nothing. */
  lemma {:induction false} FilterDropsAll<T>(s: seq<T>, p: T -> bool)
    requires forall i :: 0 <= i < |s| ==> !p(s[i])
    ensures Filter(s, p) == []
    decreases |s|
  {
    if s != [] {
      FilterDropsAll(s[1..], p);
    }
  }

  /** The elements kept by `p` and those kept by its negation together are the
      whole list, counted with multiplicity. */
  lemma {:induction false} FilterPartition<T>(s: seq<T>, p: T -> bool)
    ensures multiset(Filter(s, p)) + multiset(Filter(s, (x: T) => !p(x))) == multiset(s)
    decreases |s|
  {
    if s != [] {
      FilterPartition(s[1..], p);
      assert s == [s[0]] + s[1..];
    }
  }

  /** Filtering again by the same predicate changes nothing. */
  lemma FilterIdempotent<T>(s: seq<T>, p: T -> bool)
    ensures Filter(Filter(s, p), p) == Filter(s, p)
  {
    FilterMembers(s, p);
    forall i | 0 <= i < |Filter(s, p)| ensures p(Filter(s, p)[i]) {
      KeptPasses(s, p, Filter(s, p)[i]);
    }
    FilterKeepsAll(Filter(s, p), p);
  }

  lemma KeptPasses<T>(s: seq<T>, p: T -> bool, x: T)
    requires x in Filter(s, p)
    ensures p(x)
  {
    FilterMembers(s, p);
  }

  /** The index of the element `s.reduce((m, x) => f(x) > f(m) ? x : m)` keeps:
      the first position of a maximum of `f`. */
  function MaxIndex<T>(s: seq<T>, f: T -> real): (k: nat)
    requires |s| > 0
    ensures k < |s|
    ensures forall j :: 0 <= j < |s| ==> f(s[j]) <= f(s[k])
    ensures forall j :: 0 <= j < k ==> f(s[j]) < f(s[k])
    decreases |s|
  {
    if |s| == 1 then 0
    else
      var m := MaxIndex(s[..|s| - 1], f);
      if f(s[|s| - 1]) > f(s[m]) then |s| - 1 else m
  }

  /** The index of the element `s.reduce((m, x) => f(x) < f(m) ? x : m)` keeps:
      the first position of a minimum of `f`. */
  function MinIndex<T>(s: seq<T>, f: T -> real): (k: nat)
    requires |s| > 0
    ensures k < |s|
    ensures forall j :: 0 <= j < |s| ==> f(s[k]) <= f(s[j])
    ensures forall j :: 0 <= j < k ==> f(s[k]) < f(s[j])
    decreases |s|
  {
    if |s| == 1 then 0
    else
      var m := MinIndex(s[..|s| - 1], f);
      if f(s[|s| - 1]) < f(s[m]) then |s| - 1 else m
  }

  /** `t` is `s` with some elements left out, the rest in their order. */
  predicate IsSubsequence<T(==)>(t: seq<T>, s: seq<T>)
    decreases |s|
  {
    if t == [] then true
    else if s == [] then false
    else (t[0] == s[0] && IsSubsequence(t[1..], s[1..])) || IsSubsequence(t, s[1..])
  }

  /** A filter keeps its elements in their original order. */
  lemma {:induction false} FilterIsSubsequence<T>(s: seq<T>, p: T -> bool)
    ensures IsSubsequence(Filter(s, p), s)
    decreases |s|
  {
    if s != [] {
      FilterIsSubsequence(s[1..], p);
      if p(s[0]) {
        assert Filter(s, p)[1..] == Filter(s[1..], p);
      }
    }
  }

  /** The elements that pass `p`, then the others. */
  function Partition<T>(s: seq<T>, p: T -> bool): seq<T> {
    Filter(s, p) + Filter(s, (x: T) => !p(x))
  }

  /** A partition is stable: it holds the same elements with the same
      multiplicities, those that pass `p` exactly at the front, and both groups
      in their original order. */
  lemma PartitionSpec<T>(s: seq<T>, p: T -> bool)
    ensures multiset(Partition(s, p)) == multiset(s)
    ensures |Partition(s, p)| == |s|
    ensures |Filter(s, p)| <= |s|
    ensures forall i :: 0 <= i < |Partition(s, p)| ==> (p(Partition(s, p)[i]) <==> i < |Filter(s, p)|)
    ensures IsSubsequence(Partition(s, p)[..|Filter(s, p)|], s)
    ensures IsSubsequence(Partition(s, p)[|Filter(s, p)|..], s)
  {
    var q := (x: T) => !p(x);
    var first, rest := Filter(s, p), Filter(s, q);
    var r := Partition(s, p);
    FilterPartition(s, p);
    assert multiset(r) == multiset(first) + multiset(rest);
    assert |r| == |multiset(s)|;
    forall i | 0 <= i < |r| ensures p(r[i]) <==> i < |first| {
      if i < |first| {
        assert r[i] == first[i];
        KeptPasses(s, p, first[i]);
      } else {
        assert r[i] == rest[i - |first|];
        KeptPasses(s, q, rest[i - |first|]);
      }
    }
    assert r[..|first|] == first;
    assert r[|first|..] == rest;
    FilterIsSubsequence(s, p);
    FilterIsSubsequence(s, q);
  }
}
