/** Scalar statistics over the daily cashflow series (audit_script.py lines
    56-68): winning/losing-day split, win rate, average win and loss, gross
    loss, profit factor and risk/reward, with the script's "divide or fall
    back to 0" rule. Money stays integral; ratios are reals. */
module Metrics {
  import opened SeqMath
  import opened Results

  /** Why the metrics cannot be computed. */
  datatype MetricsError =
    /** No trade rows, hence no daily rows: the run aborts before any output. */
    | NoTradingDays

  /** Days closing with a profit (`daily_pnl['Cashflow'] > 0`): the positive
      daily cashflows, each kept once per day (`Positives`, `PositivesCounted`). */
  function WinningDays(d: seq<int>): seq<int>
  {
    Positives(d)
  }

  /** Days closing with a loss (`daily_pnl['Cashflow'] < 0`): the negative
      daily cashflows, each kept once per day (`Negatives`, `NegativesCounted`). */
  function LosingDays(d: seq<int>): seq<int>
  {
    Negatives(d)
  }

  /** Number of days that closed flat. */
  function BreakEvenDays(d: seq<int>): nat
  {
    if |d| == 0 then 0
    else (if d[0] == 0 then 1 else 0) + BreakEvenDays(d[1..])
  }

  /** Winning and losing days never overlap, break-even days are in neither,
      the three groups count all days, and wins and losses add up to the
      net total. */
  lemma {:induction false} DaySplit(d: seq<int>)
    ensures forall x :: !(x in WinningDays(d) && x in LosingDays(d))
    ensures 0 !in WinningDays(d) && 0 !in LosingDays(d)
    ensures |WinningDays(d)| + |LosingDays(d)| + BreakEvenDays(d) == |d|
    ensures Sum(WinningDays(d)) + Sum(LosingDays(d)) == Sum(d)
  {
    if |d| > 0 {
      DaySplit(d[1..]);
    }
  }

  /** `rate` is `part` out of `whole` as a percentage. */
  predicate IsPercentOf(rate: real, part: nat, whole: nat)
  {
    rate * (whole as real) == 100.0 * (part as real)
  }

  /** Percentage of days that were winning days; fails when there are no days. */
  function WinRate(d: seq<int>): (r: Result<real, MetricsError>)
    ensures r.Failure? <==> |d| == 0
    ensures r.Success? ==> 0.0 <= r.value <= 100.0
    ensures r.Success? ==> IsPercentOf(r.value, |WinningDays(d)|, |d|)
    ensures r.Success? ==> (r.value == 100.0 <==> |WinningDays(d)| == |d|)
    ensures r.Success? ==> (r.value == 0.0 <==> |WinningDays(d)| == 0)
  {
    if |d| == 0 then Failure(NoTradingDays)
    else
      var w := |WinningDays(d)| as real;
      var n := |d| as real;
      assert 0.0 <= w <= n;
      var rate := w / n * 100.0;
      assert rate * n == 100.0 * w;
      Success(rate)
  }

  /** Arithmetic mean of a non-empty series. */
  function Mean(s: seq<int>): (m: real)
    requires |s| > 0
    ensures m * (|s| as real) == Sum(s) as real
  {
    (Sum(s) as real) / (|s| as real)
  }

  /** Mean cashflow of the winning days, or 0 when there are none. */
  function AvgWin(d: seq<int>): (r: real)
    ensures r >= 0.0
    ensures r == 0.0 <==> |WinningDays(d)| == 0
    ensures r * (|WinningDays(d)| as real) == Sum(WinningDays(d)) as real
  {
    var wins := WinningDays(d);
    if |wins| == 0 then 0.0
    else
      SumPositives(wins);
      Mean(wins)
  }

  /** Absolute value of the mean cashflow of the losing days, or 0 when there are none. */
  function AvgLoss(d: seq<int>): (r: real)
    ensures r >= 0.0
    ensures r == 0.0 <==> |LosingDays(d)| == 0
    ensures r * (|LosingDays(d)| as real) == -(Sum(LosingDays(d)) as real)
  {
    var losses := LosingDays(d);
    if |losses| == 0 then 0.0
    else
      SumNegatives(losses);
      var m := Mean(losses);
      if m < 0.0 then -m else m
  }

  /** Absolute value of the total of the losing days. */
  function GrossLoss(d: seq<int>): (g: int)
    ensures g >= 0
    ensures g == -Sum(LosingDays(d))
    ensures g == 0 <==> |LosingDays(d)| == 0
  {
    var s := Sum(LosingDays(d));
    SumNegatives(LosingDays(d));
    if s < 0 then -s else s
  }

  /** Total of the winning days over the gross loss, or 0 when there is no loss. */
  function ProfitFactor(d: seq<int>): (r: real)
    ensures r >= 0.0
    ensures |LosingDays(d)| == 0 ==> r == 0.0
    ensures |LosingDays(d)| > 0 ==> r * (GrossLoss(d) as real) == Sum(WinningDays(d)) as real
    ensures r == 0.0 <==> |WinningDays(d)| == 0 || |LosingDays(d)| == 0
  {
    var g := GrossLoss(d);
    SumPositives(WinningDays(d));
    if g != 0 then (Sum(WinningDays(d)) as real) / (g as real) else 0.0
  }

  /** Average win over average loss, or 0 when the average loss is 0. */
  function RiskReward(d: seq<int>): (r: real)
    ensures r >= 0.0
    ensures |LosingDays(d)| == 0 ==> r == 0.0
    ensures |LosingDays(d)| > 0 ==> r * AvgLoss(d) == AvgWin(d)
    ensures r == 0.0 <==> |WinningDays(d)| == 0 || |LosingDays(d)| == 0
  {
    var loss := AvgLoss(d);
    if loss != 0.0 then AvgWin(d) / loss else 0.0
  }

  /** Profit factor and risk/reward compare the same two sides: they agree
      when as many days are won as lost. */
  lemma BalancedDaysRatiosAgree(d: seq<int>)
    requires |WinningDays(d)| == |LosingDays(d)| > 0
    ensures ProfitFactor(d) == RiskReward(d)
  {
    var n := |WinningDays(d)| as real;
    var g := GrossLoss(d) as real;
    var s := Sum(WinningDays(d)) as real;
    var al, aw := AvgLoss(d), AvgWin(d);
    var pf, rr := ProfitFactor(d), RiskReward(d);
    assert al * n == g && aw * n == s;
    assert pf * g == s && rr * al == aw;
    calc {
      rr * g;
      rr * (al * n);
      (rr * al) * n;
      aw * n;
      s;
      pf * g;
    }
    assert g > 0.0;
    CancelFactor(rr, pf, g);
  }

  lemma CancelFactor(x: real, y: real, g: real)
    requires g != 0.0 && x * g == y * g
    ensures x == y
  {
    assert (x - y) * g == 0.0;
  }
}
