/** Equity curve and drawdown over the daily cashflow series
    (audit_script.py lines 48-50 and 67): cumulative P&L, its running peak,
    and the distance of each day below that peak. */
module Equity {
  import opened SeqMath

  /** Prefix-sum scan starting from `acc` (pandas `cumsum`). */
  function CumSumFrom(d: seq<int>, acc: int): (c: seq<int>)
    ensures |c| == |d|
    ensures forall i :: 0 <= i < |d| ==> c[i] == acc + Sum(d[..i + 1])
  {
    if |d| == 0 then []
    else
      var rest := CumSumFrom(d[1..], acc + d[0]);
      assert forall i :: 0 < i < |d| ==> d[..i + 1][1..] == d[1..][..i];
      [acc + d[0]] + rest
  }

  /** Cumulative P&L of a daily series. */
  function CumSum(d: seq<int>): (c: seq<int>)
    ensures |c| == |d|
    ensures forall i :: 0 <= i < |d| ==> c[i] == Sum(d[..i + 1])
  {
    CumSumFrom(d, 0)
  }

  /** The cumulative series starts at the first day and adds one day at a time. */
  lemma CumSumRecurrence(d: seq<int>)
    ensures |d| > 0 ==> CumSum(d)[0] == d[0]
    ensures forall i :: 0 < i < |d| ==> CumSum(d)[i] == CumSum(d)[i - 1] + d[i]
  {
    var c := CumSum(d);
    forall i | 0 < i < |d| ensures c[i] == c[i - 1] + d[i] {
      assert d[..i + 1] == d[..i] + [d[i]];
      SumSnoc(d[..i], d[i]);
    }
  }

  /** The last cumulative value is the total of the whole series. */
  lemma CumSumLast(d: seq<int>)
    requires |d| > 0
    ensures CumSum(d)[|d| - 1] == Sum(d)
  {
    assert d[..|d|] == d;
  }

  /** Running-maximum scan seeded with `best` (pandas `cummax`). */
  function CumMaxFrom(c: seq<int>, best: int): (p: seq<int>)
    ensures |p| == |c|
    ensures forall i :: 0 <= i < |c| ==> p[i] >= best
    ensures forall i, j :: 0 <= j <= i < |c| ==> p[i] >= c[j]
    ensures forall i, j :: 0 <= i <= j < |c| ==> p[i] <= p[j]
    ensures forall i :: 0 <= i < |c| ==> p[i] == best || exists j :: 0 <= j <= i && p[i] == c[j]
  {
    if |c| == 0 then []
    else
      var m := if c[0] < best then best else c[0];
      var rest := CumMaxFrom(c[1..], m);
      var p := [m] + rest;
      assert forall i :: 0 < i < |c| ==> p[i] == rest[i - 1];
      assert forall i :: 0 < i < |c| ==> (exists j :: 0 <= j < i && rest[i - 1] == c[1..][j])
                                         ==> (exists j :: 0 <= j <= i && p[i] == c[j]) by {
        forall i | 0 < i < |c| && (exists j :: 0 <= j < i && rest[i - 1] == c[1..][j])
          ensures exists j :: 0 <= j <= i && p[i] == c[j]
        {
          var j :| 0 <= j < i && rest[i - 1] == c[1..][j];
          assert p[i] == c[j + 1];
        }
      }
      p
  }

  /** Running peak of a cumulative series: non-decreasing, and on day `i`
      the highest cumulative value of days `0..i`. */
  function CumMax(c: seq<int>): (p: seq<int>)
    ensures |p| == |c|
    ensures forall i, j :: 0 <= i <= j < |c| ==> p[i] <= p[j]
    ensures forall i, j :: 0 <= j <= i < |c| ==> c[j] <= p[i]
    ensures forall i :: 0 <= i < |c| ==> exists j :: 0 <= j <= i && p[i] == c[j]
  {
    if |c| == 0 then [] else CumMaxFrom(c, c[0])
  }

  /** The peak starts at the first value and then keeps the larger of the
      previous peak and the new value, as pandas `cummax` computes it. */
  lemma CumMaxRecurrence(c: seq<int>)
    ensures |c| > 0 ==> CumMax(c)[0] == c[0]
    ensures forall i :: 0 < i < |c| ==>
      CumMax(c)[i] == if CumMax(c)[i - 1] < c[i] then c[i] else CumMax(c)[i - 1]
  {
    var p := CumMax(c);
    forall i | 0 < i < |c|
      ensures p[i] == if p[i - 1] < c[i] then c[i] else p[i - 1]
    {
      var j :| 0 <= j <= i && p[i] == c[j];
      if j < i {
        assert c[j] <= p[i - 1];
      }
    }
  }

  /** Drawdown series: how far each day's cumulative value sits below its running peak. */
  function Drawdowns(c: seq<int>): (dd: seq<int>)
    ensures |dd| == |c|
    ensures forall i :: 0 <= i < |c| ==> dd[i] <= 0
    ensures |c| > 0 ==> dd[0] == 0
  {
    var p := CumMax(c);
    seq(|c|, i requires 0 <= i < |c| => c[i] - p[i])
  }

  /** A day has zero drawdown exactly when it is at a new (or equal) high. */
  lemma DrawdownZeroAtHigh(c: seq<int>, i: int)
    requires 0 <= i < |c|
    ensures Drawdowns(c)[i] == 0 <==> forall j :: 0 <= j <= i ==> c[j] <= c[i]
  {
  }

  /** Deepest drawdown: the minimum of the drawdown series. */
  function MaxDrawdown(c: seq<int>): (m: int)
    requires |c| > 0
    ensures m <= 0
    ensures m in Drawdowns(c)
    ensures forall i :: 0 <= i < |c| ==> m <= Drawdowns(c)[i]
  {
    Min(Drawdowns(c))
  }

  predicate NonDecreasing(c: seq<int>)
  {
    forall i, j :: 0 <= i <= j < |c| ==> c[i] <= c[j]
  }

  /** The deepest drawdown is zero exactly when the equity curve never falls. */
  lemma MaxDrawdownZero(c: seq<int>)
    requires |c| > 0
    ensures MaxDrawdown(c) == 0 <==> NonDecreasing(c)
  {
    var dd := Drawdowns(c);
    if MaxDrawdown(c) == 0 {
      forall i, j | 0 <= i <= j < |c| ensures c[i] <= c[j] {
        DrawdownZeroAtHigh(c, j);
      }
    }
    if NonDecreasing(c) {
      DrawdownZeroAtHigh(c, 0);
      forall i | 0 <= i < |c| ensures dd[i] == 0 {
        DrawdownZeroAtHigh(c, i);
      }
    }
  }

  /** The deepest drawdown is minus the largest fall from an earlier value to a later one. */
  lemma MaxDrawdownIsLargestFall(c: seq<int>)
    requires |c| > 0
    ensures forall j, i :: 0 <= j <= i < |c| ==> MaxDrawdown(c) <= c[i] - c[j]
    ensures exists j, i :: 0 <= j <= i < |c| && MaxDrawdown(c) == c[i] - c[j]
  {
    var dd := Drawdowns(c);
    var m := MaxDrawdown(c);
    var p := CumMax(c);
    forall j, i | 0 <= j <= i < |c| ensures m <= c[i] - c[j] {
      assert dd[i] == c[i] - p[i];
    }
    var i :| 0 <= i < |c| && dd[i] == m;
    var j :| 0 <= j <= i && p[i] == c[j];
    assert m == c[i] - c[j];
  }
}
