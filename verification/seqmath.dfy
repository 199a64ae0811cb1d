/** Sums, extrema and sign filters over integer sequences, shared by the aggregation stages. */
module SeqMath {

  /** Sum of all elements (pandas `Series.sum()` over integers). */
  function Sum(s: seq<int>): int
  {
    if |s| == 0 then 0 else s[0] + Sum(s[1..])
  }

  /** Summing distributes over concatenation. */
  lemma {:induction false} SumAppend(a: seq<int>, b: seq<int>)
    ensures Sum(a + b) == Sum(a) + Sum(b)
  {
    if |a| == 0 {
      assert a + b == b;
    } else {
      assert (a + b)[1..] == a[1..] + b;
      SumAppend(a[1..], b);
    }
  }

  /** Adding one element at the back adds it to the sum. */
  lemma SumSnoc(s: seq<int>, x: int)
    ensures Sum(s + [x]) == Sum(s) + x
  {
    SumAppend(s, [x]);
  }

  /** Smallest element of a non-empty sequence (pandas `Series.min()`). */
  function Min(s: seq<int>): (m: int)
    requires |s| > 0
    ensures m in s
    ensures forall i :: 0 <= i < |s| ==> m <= s[i]
  {
    if |s| == 1 then s[0]
    else
      var rest := Min(s[1..]);
      assert rest in s;
      if s[0] <= rest then s[0] else rest
  }

  /** The elements greater than zero, in their original order. */
  function Positives(s: seq<int>): (p: seq<int>)
    ensures |p| <= |s|
    ensures forall i :: 0 <= i < |p| ==> p[i] > 0
    ensures forall x :: x in p <==> x in s && x > 0
  {
    if |s| == 0 then []
    else if s[0] > 0 then [s[0]] + Positives(s[1..])
    else Positives(s[1..])
  }
  /** The elements less than zero, in their original order. */
  function Negatives(s: seq<int>): (n: seq<int>)
    ensures |n| <= |s|
    ensures forall i :: 0 <= i < |n| ==> n[i] < 0
    ensures forall x :: x in n <==> x in s && x < 0
  {
    if |s| == 0 then []
    else if s[0] < 0 then [s[0]] + Negatives(s[1..])
    else Negatives(s[1..])
  }
  /** Every positive value is kept as many times as it occurs, and no other
      value is kept: the filter fixes how many positive elements there are. */
  lemma {:induction false} PositivesCounted(s: seq<int>)
    ensures forall x :: multiset(Positives(s))[x] == if x > 0 then multiset(s)[x] else 0
  {
    if |s| > 0 {
      assert s == [s[0]] + s[1..];
      PositivesCounted(s[1..]);
    }
  }

  /** Every negative value is kept as many times as it occurs, and no other
      value is kept. */
  lemma {:induction false} NegativesCounted(s: seq<int>)
    ensures forall x :: multiset(Negatives(s))[x] == if x < 0 then multiset(s)[x] else 0
  {
    if |s| > 0 {
      assert s == [s[0]] + s[1..];
      NegativesCounted(s[1..]);
    }
  }

  /** A sum of positive elements is positive as soon as there is one. */
  lemma {:induction false} SumPositives(s: seq<int>)
    requires forall i :: 0 <= i < |s| ==> s[i] > 0
    ensures Sum(s) >= |s|
  {
    if |s| > 0 {
      SumPositives(s[1..]);
    }
  }

  /** A sum of negative elements is negative as soon as there is one. */
  lemma {:induction false} SumNegatives(s: seq<int>)
    requires forall i :: 0 <= i < |s| ==> s[i] < 0
    ensures Sum(s) <= -|s|
  {
    if |s| > 0 {
      SumNegatives(s[1..]);
    }
  }
}
