/** Sequence operations shared by the editor tools: the `foreach … if … Add`
    pattern as a filter, and counting. */
module Seqs {

  /** The elements of `s` that satisfy `p`, in their original order. */
  function Filter<T(==)>(s: seq<T>, p: T -> bool): (r: seq<T>)
    ensures |r| <= |s|
    ensures forall i :: 0 <= i < |r| ==> p(r[i])
  {
    if |s| == 0 then []
    else if p(s[0]) then [s[0]] + Filter(s[1..], p)
    else Filter(s[1..], p)
  }

  /** An element survives the filter exactly when it was there and satisfies
      the predicate. */
  lemma {:induction false} FilterContains<T>(s: seq<T>, p: T -> bool, x: T)
    ensures x in Filter(s, p) <==> x in s && p(x)
    decreases |s|
  {
    if |s| > 0 {
      FilterContains(s[1..], p, x);
      assert s == [s[0]] + s[1..];
    }
  }

  lemma FilterContainsAll<T>(s: seq<T>, p: T -> bool)
    ensures forall x :: x in Filter(s, p) <==> x in s && p(x)
  {
    forall x
      ensures x in Filter(s, p) <==> x in s && p(x)
    {
      FilterContains(s, p, x);
    }
  }

  /** `r` can be obtained from `s` by deleting elements, keeping the order of
      the rest. */
  ghost predicate SubsequenceOf<T>(r: seq<T>, s: seq<T>) {
    exists keep: seq<nat> ::
      |keep| == |r| &&
      (forall i, j :: 0 <= i < j < |keep| ==> keep[i] < keep[j]) &&
      (forall i :: 0 <= i < |keep| ==> keep[i] < |s| && s[keep[i]] == r[i])
  }

  /** Prepending the same element to both sides keeps a subsequence. */
  lemma SubsequenceCons<T>(x: T, r: seq<T>, s: seq<T>)
    requires SubsequenceOf(r, s)
    ensures SubsequenceOf([x] + r, [x] + s)
  {
    var keep: seq<nat> :| |keep| == |r| &&
      (forall i, j :: 0 <= i < j < |keep| ==> keep[i] < keep[j]) &&
      (forall i :: 0 <= i < |keep| ==> keep[i] < |s| && s[keep[i]] == r[i]);
    var keep' := [0] + seq(|keep|, i requires 0 <= i < |keep| => keep[i] + 1);
    assert forall i :: 0 <= i < |keep'| ==> keep'[i] < |[x] + s| && ([x] + s)[keep'[i]] == ([x] + r)[i];
  }

  /** Prepending an element to the longer side keeps a subsequence. */
  lemma SubsequenceSkip<T>(x: T, r: seq<T>, s: seq<T>)
    requires SubsequenceOf(r, s)
    ensures SubsequenceOf(r, [x] + s)
  {
    var keep: seq<nat> :| |keep| == |r| &&
      (forall i, j :: 0 <= i < j < |keep| ==> keep[i] < keep[j]) &&
      (forall i :: 0 <= i < |keep| ==> keep[i] < |s| && s[keep[i]] == r[i]);
    var keep' := seq(|keep|, i requires 0 <= i < |keep| => keep[i] + 1);
    var s' := [x] + s;
    forall i | 0 <= i < |keep'|
      ensures keep'[i] < |s'| && s'[keep'[i]] == r[i]
    {
      assert s'[keep[i] + 1] == s[keep[i]];
    }
    assert forall i, j :: 0 <= i < j < |keep'| ==> keep'[i] < keep'[j];
  }

  /** Filtering keeps the survivors in their original order. */
  lemma {:induction false} FilterIsSubsequence<T>(s: seq<T>, p: T -> bool)
    ensures SubsequenceOf(Filter(s, p), s)
    decreases |s|
  {
    if |s| == 0 {
      var keep: seq<nat> := [];
      assert |keep| == |Filter(s, p)|;
    } else {
      FilterIsSubsequence(s[1..], p);
      assert s == [s[0]] + s[1..];
      if p(s[0]) {
        SubsequenceCons(s[0], Filter(s[1..], p), s[1..]);
      } else {
        SubsequenceSkip(s[0], Filter(s[1..], p), s[1..]);
      }
    }
  }

  /** Filtering keeps every occurrence of an element that passes and drops
      every occurrence of one that does not. */
  lemma {:induction false} FilterMultiplicity<T>(s: seq<T>, p: T -> bool, x: T)
    ensures multiset(Filter(s, p))[x] == if p(x) then multiset(s)[x] else 0
    decreases |s|
  {
    if |s| > 0 {
      FilterMultiplicity(s[1..], p, x);
      assert s == [s[0]] + s[1..];
    }
  }

  /** A filter that every element passes keeps the whole sequence. */
  lemma {:induction false} FilterKeepsAll<T>(s: seq<T>, p: T -> bool)
    requires forall i :: 0 <= i < |s| ==> p(s[i])
    ensures Filter(s, p) == s
    decreases |s|
  {
    if |s| > 0 {
      FilterKeepsAll(s[1..], p);
    }
  }

  /** Number of elements of `s` that satisfy `p`. */
  function Count<T(==)>(s: seq<T>, p: T -> bool): (n: nat)
    ensures n <= |s|
    ensures n == |Filter(s, p)|
  {
    if |s| == 0 then 0
    else (if p(s[0]) then 1 else 0) + Count(s[1..], p)
  }

  /** Counting over a sequence extended by one element. */
  lemma {:induction false} CountAppend<T>(s: seq<T>, x: T, p: T -> bool)
    ensures Count(s + [x], p) == Count(s, p) + (if p(x) then 1 else 0)
    decreases |s|
  {
    if |s| > 0 {
      assert (s + [x])[1..] == s[1..] + [x];
      CountAppend(s[1..], x, p);
    }
  }
}
