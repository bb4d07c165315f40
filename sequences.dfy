/** Deduplication in first-seen order, as `[...new Set(s)]` computes it, and
    the facts about it the chart and table code relies on. */
module Sequences {

  predicate Distinct<T(==)>(s: seq<T>) {
    forall i, j :: 0 <= i < j < |s| ==> s[i] != s[j]
  }

  /** `[...new Set(s)]`: every element of `s` once, in order of first occurrence. */
  function Unique<T(==,!new)>(s: seq<T>): (u: seq<T>)
    ensures forall x :: x in u <==> x in s
    ensures Distinct(u)
    ensures |u| <= |s|
  {
    if |s| == 0 then []
    else
      var prefix := Unique(s[..|s| - 1]);
      assert s == s[..|s| - 1] + [s[|s| - 1]];
      if s[|s| - 1] in prefix then prefix else prefix + [s[|s| - 1]]
  }

  /** The position of the first occurrence of `x` in `s`. */
  function FirstIndex<T(==)>(s: seq<T>, x: T): (i: nat)
    requires x in s
    ensures i < |s| && s[i] == x && x !in s[..i]
  {
    if s[0] == x then 0
    else
      var i := 1 + FirstIndex(s[1..], x);
      assert s[..i] == [s[0]] + s[1..][..i - 1];
      i
  }

  /** The position of the last occurrence of `x` in `s`. */
  function LastIndex<T(==)>(s: seq<T>, x: T): (i: nat)
    requires x in s
    ensures i < |s| && s[i] == x && x !in s[i + 1..]
  {
    if s[|s| - 1] == x then |s| - 1
    else
      assert s == s[..|s| - 1] + [s[|s| - 1]];
      var i := LastIndex(s[..|s| - 1], x);
      assert s[i + 1..] == s[..|s| - 1][i + 1..] + [s[|s| - 1]];
      i
  }

  lemma FirstIndexIs<T>(s: seq<T>, x: T, i: nat)
    requires i < |s| && s[i] == x && x !in s[..i]
    ensures FirstIndex(s, x) == i
  {
  }

  lemma FirstIndexSnoc<T>(s: seq<T>, y: T, x: T)
    requires x in s
    ensures FirstIndex(s + [y], x) == FirstIndex(s, x)
  {
    var i := FirstIndex(s, x);
    assert (s + [y])[..i] == s[..i];
    FirstIndexIs(s + [y], x, i);
  }

  /** `Unique` lists the elements in the order in which they first occur. */
  lemma {:induction false} UniqueInFirstSeenOrder<T(!new)>(s: seq<T>)
    ensures forall i, j :: 0 <= i < j < |Unique(s)| ==>
      FirstIndex(s, Unique(s)[i]) < FirstIndex(s, Unique(s)[j])
  {
    if |s| > 0 {
      var p, x := s[..|s| - 1], s[|s| - 1];
      assert s == p + [x];
      UniqueInFirstSeenOrder(p);
      var up, u := Unique(p), Unique(s);
      forall i | 0 <= i < |up|
        ensures FirstIndex(s, up[i]) == FirstIndex(p, up[i]) < |p|
      {
        FirstIndexSnoc(p, x, up[i]);
      }
      if x !in up {
        assert x !in s[..|p|];
        FirstIndexIs(s, x, |p|);
      }
    }
  }

  /** The first-seen order of two given positions of `Unique(s)`. */
  lemma UniqueOrderAt<T(!new)>(s: seq<T>, i: nat, j: nat)
    requires i < j < |Unique(s)|
    ensures FirstIndex(s, Unique(s)[i]) < FirstIndex(s, Unique(s)[j])
  {
    UniqueInFirstSeenOrder(s);
  }

  lemma {:induction false} DistinctCardinality<T>(s: seq<T>)
    requires Distinct(s)
    ensures |set x | x in s| == |s|
  {
    if |s| > 0 {
      var p := s[..|s| - 1];
      assert s == p + [s[|s| - 1]];
      DistinctCardinality(p);
      assert (set x | x in s) == (set x | x in p) + {s[|s| - 1]};
    }
  }

  /** `Unique(s)` has as many elements as `s` has distinct values. */
  lemma UniqueCount<T(!new)>(s: seq<T>)
    ensures |Unique(s)| == |set x | x in s|
  {
    DistinctCardinality(Unique(s));
    assert (set x | x in Unique(s)) == (set x | x in s);
  }
}
