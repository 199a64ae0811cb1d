/** Worked examples of the metrics on small inputs. */
module Scenarios {
  import opened Results
  import opened Trades
  import opened Grouping
  import opened Equity
  import opened Metrics
  import opened Audit

  /** A profitable day followed by a losing one, +1000 then -400: the equity
      curve peaks on day one and the second day sits 400 below it. */
  lemma GainThenLossEquity()
    ensures CumSum([1000, -400]) == [1000, 600]
    ensures CumMax([1000, 600]) == [1000, 1000]
    ensures Drawdowns([1000, 600]) == [0, -400]
    ensures MaxDrawdown([1000, 600]) == -400
  {
    var d := [1000, -400];
    assert d[..1] == [1000] && d[..2] == d;
    CumMaxRecurrence([1000, 600]);
  }

  /** The same two days: half of them won, and both ratios are 1000 / 400. */
  lemma GainThenLossRatios()
    ensures WinRate([1000, -400]) == Success(50.0)
    ensures AvgWin([1000, -400]) == 1000.0 && AvgLoss([1000, -400]) == 400.0
    ensures ProfitFactor([1000, -400]) == 2.5
    ensures RiskReward([1000, -400]) == 2.5
  {
    var d := [1000, -400];
    assert WinningDays(d) == [1000];
    assert LosingDays(d) == [-400];
    assert GrossLoss(d) == 400;
  }

  /** Only losing days: every ratio falls back to 0. */
  lemma OnlyLosses()
    ensures WinRate([-100, -300]) == Success(0.0)
    ensures AvgWin([-100, -300]) == 0.0
    ensures AvgLoss([-100, -300]) == 200.0
    ensures ProfitFactor([-100, -300]) == 0.0
    ensures RiskReward([-100, -300]) == 0.0
  {
    var d := [-100, -300];
    assert WinningDays(d) == [];
    assert LosingDays(d) == [-100, -300];
  }

  /** Two trades on one day, a purchase for 1000 and a sale for 1500:
      their cashflows are -1000 and +1500 ... */
  lemma SameDayCashflows()
    ensures Cashflow(Trade(1, 9, "BUY", 1000, "EQ")) == -1000
    ensures Cashflow(Trade(1, 10, "SELL", 1500, "EQ")) == 1500
  {
    NoSIsOutflow(Trade(1, 9, "BUY", 1000, "EQ"));
    PlainSellIsSale();
  }

  /** ... they group into a single daily row of +500 ... */
  lemma SameDayGrouping()
    ensures GroupSum([Flow(1, -1000), Flow(1, 1500)]) == [Bucket(1, 500)]
  {
    var fs := [Flow(1, -1000), Flow(1, 1500)];
    assert fs[1..] == [Flow(1, 1500)];
    assert fs[1..][1..] == [];
    assert GroupSum(fs[1..]) == [Bucket(1, 1500)];
  }

  /** ... which is a winning day with no drawdown, and the profit factor
      falls back to 0 for want of a losing day. */
  lemma SameDayMetrics()
    ensures CumSum([500]) == [500] && CumMax([500]) == [500] && Drawdowns([500]) == [0]
    ensures MaxDrawdown([500]) == 0
    ensures WinRate([500]) == Success(100.0)
    ensures ProfitFactor([500]) == 0.0
    ensures RiskReward([500]) == 0.0
  {
    var d := [500];
    assert d[..1] == d;
    assert WinningDays(d) == [500];
    assert LosingDays(d) == [];
  }

  lemma PlainSellIsSale()
    ensures IsSellSide("SELL")
  {
    assert TrimStart("SELL") == "SELL";
    assert TrimEnd("SELL") == "SELL";
    var u := Upper("SELL");
    assert u[0] == 'S' && u[1] == 'E' && u[2] == 'L' && u[3] == 'L';
  }

  /** A side that is neither BUY nor SELL is booked as a purchase. */
  lemma UnknownSideIsOutflow()
    ensures Cashflow(Trade(1, 10, "HOLD", 700, "")) == -700
  {
    NoSIsOutflow(Trade(1, 10, "HOLD", 700, ""));
  }

  /** Lower case and padding do not hide a sale. */
  lemma PaddedLowerCaseSell()
    ensures Cashflow(Trade(1, 10, " sell ", 700, "")) == 700
  {
    assert " sell " == " " + "sell" + " ";
    PaddedSellIsSale(" ", "sell", " ");
  }

  /** An empty log aborts without a report. */
  lemma EmptyLogAborts()
    ensures Run(TradeLog([], true)).Failure?
  {
  }
}
