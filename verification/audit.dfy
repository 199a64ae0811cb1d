/** The metrics pipeline of `generate_audit` (audit_script.py lines 34-68,
    133-134 and the abort of lines 169-172): trades to cashflows, cashflows
    to daily and hourly group sums, daily sums to the equity curve and the
    scalar summary. */
module Audit {
  import opened SeqMath
  import opened Results
  import opened Trades
  import opened Grouping
  import opened Equity
  import opened Metrics
  import opened Segments

  /** One row of the daily table: a trading date and its equity figures. */
  datatype DailyRow = DailyRow(date: int, cashflow: int, cumulative: int, peak: int, drawdown: int)

  /** The scalar figures of the report. */
  datatype Summary = Summary(
    totalTrades: nat,
    netProfit: int,
    segments: string,
    profitFactor: real,
    winRate: real,
    avgWin: real,
    avgLoss: real,
    riskReward: real,
    maxDrawdown: int)

  /** Everything the report and the dashboard are drawn from. */
  datatype Report = Report(summary: Summary, daily: seq<DailyRow>, hourly: seq<Bucket>)

  /** The `Cashflow` column. */
  function Cashflows(ts: seq<Trade>): (c: seq<int>)
    ensures |c| == |ts|
    ensures forall i :: 0 <= i < |ts| ==> c[i] == Cashflow(ts[i])
  {
    if |ts| == 0 then [] else [Cashflow(ts[0])] + Cashflows(ts[1..])
  }

  /** Each trade's cashflow filed under its date. */
  function DateFlows(ts: seq<Trade>): (fs: seq<Flow>)
    ensures |fs| == |ts|
    ensures forall i :: 0 <= i < |ts| ==> fs[i] == Flow(ts[i].date, Cashflow(ts[i]))
  {
    if |ts| == 0 then [] else [Flow(ts[0].date, Cashflow(ts[0]))] + DateFlows(ts[1..])
  }

  /** Each trade's cashflow filed under its hour. */
  function HourFlows(ts: seq<Trade>): (fs: seq<Flow>)
    ensures |fs| == |ts|
    ensures forall i :: 0 <= i < |ts| ==> fs[i] == Flow(ts[i].hour, Cashflow(ts[i]))
  {
    if |ts| == 0 then [] else [Flow(ts[0].hour, Cashflow(ts[0]))] + HourFlows(ts[1..])
  }

  function SegmentColumn(ts: seq<Trade>): (s: seq<string>)
    ensures |s| == |ts|
    ensures forall i :: 0 <= i < |ts| ==> s[i] == ts[i].segment
  {
    if |ts| == 0 then [] else [ts[0].segment] + SegmentColumn(ts[1..])
  }

  /** Daily cashflow per trading date, in date order (line 47). */
  function DailyPnl(ts: seq<Trade>): (daily: seq<Bucket>)
    ensures StrictlyAscending(daily)
    ensures BucketKeys(daily) == FlowKeys(DateFlows(ts))
  {
    GroupSum(DateFlows(ts))
  }

  /** Hourly cashflow per hour of day, in hour order (lines 133-134). */
  function HourlyPnl(ts: seq<Trade>): (h: seq<Bucket>)
    ensures StrictlyAscending(h)
    ensures BucketKeys(h) == FlowKeys(HourFlows(ts))
    ensures forall i :: 0 <= i < |h| ==> 0 <= h[i].key < 24
    ensures |h| <= 24
  {
    var fs := HourFlows(ts);
    var h := GroupSum(fs);
    forall i | 0 <= i < |h| ensures 0 <= h[i].key < 24 {
      BucketKeysIndex(h, h[i].key);
      FlowKeysIndex(fs, h[i].key);
    }
    AscendingInRange(h, 0, 24);
    h
  }

  /** Extends each daily row with cumulative P&L, running peak and drawdown (lines 48-50). */
  function DailyRows(buckets: seq<Bucket>): (rows: seq<DailyRow>)
    ensures |rows| == |buckets|
    ensures forall i :: 0 <= i < |rows| ==> rows[i].date == buckets[i].key && rows[i].cashflow == buckets[i].total
    ensures |rows| > 0 ==> rows[0].cumulative == rows[0].cashflow && rows[0].peak == rows[0].cumulative
    ensures forall i :: 0 < i < |rows| ==> rows[i].cumulative == rows[i - 1].cumulative + rows[i].cashflow
    ensures forall i :: 0 < i < |rows| ==> rows[i].peak == if rows[i - 1].peak < rows[i].cumulative then rows[i].cumulative else rows[i - 1].peak
    ensures forall i :: 0 <= i < |rows| ==> rows[i].drawdown == rows[i].cumulative - rows[i].peak <= 0
  {
    var d := Totals(buckets);
    var c := CumSum(d);
    var p := CumMax(c);
    var dd := Drawdowns(c);
    CumSumRecurrence(d);
    CumMaxRecurrence(c);
    seq(|buckets|, i requires 0 <= i < |buckets| => DailyRow(buckets[i].key, d[i], c[i], p[i], dd[i]))
  }

  /** Runs the metrics pipeline; an input without trades aborts with no report.
      On an empty table the first step to fail is the cashflow column (line
      34: `apply` on an empty frame returns a frame, which cannot be stored as
      one column); the win rate of line 59 would divide by zero next. */
  function Run(log: TradeLog): (r: Result<Report, MetricsError>)
    ensures r.Failure? <==> |log.trades| == 0
    ensures r.Success? ==> r.value.summary.totalTrades == |log.trades|
  {
    var ts := log.trades;
    if |ts| == 0 then Failure(NoTradingDays)
    else
      var segmentText := SegmentLabel(log.hasSegment, SegmentColumn(ts));
      var daily := DailyPnl(ts);
      var d := Totals(daily);
      GroupSumSize(DateFlows(ts));
      EmptyKeys(DateFlows(ts));
      var rate := WinRate(d).value;
      var c := CumSum(d);
      var summary := Summary(
        totalTrades := |ts|,
        netProfit := Sum(Cashflows(ts)),
        segments := segmentText,
        profitFactor := ProfitFactor(d),
        winRate := rate,
        avgWin := AvgWin(d),
        avgLoss := AvgLoss(d),
        riskReward := RiskReward(d),
        maxDrawdown := MaxDrawdown(c));
      Success(Report(summary, DailyRows(daily), HourlyPnl(ts)))
  }

  /** Where each part of a successful run comes from. */
  lemma RunParts(log: TradeLog)
    requires |log.trades| > 0
    ensures var ts := log.trades;
      var d := Totals(DailyPnl(ts));
      var rep := Run(log).value;
      && |d| > 0
      && rep.daily == DailyRows(DailyPnl(ts))
      && rep.hourly == HourlyPnl(ts)
      && rep.summary.netProfit == Sum(Cashflows(ts))
      && Success(rep.summary.winRate) == WinRate(d)
      && rep.summary.maxDrawdown == MaxDrawdown(CumSum(d))
  {
    GroupSumSize(DateFlows(log.trades));
    EmptyKeys(DateFlows(log.trades));
  }

  /** The trading dates of a set of trades. */
  function TradeDates(ts: seq<Trade>): set<int>
  {
    set t | t in ts :: t.date
  }

  function RowDates(rows: seq<DailyRow>): set<int>
  {
    set i | 0 <= i < |rows| :: rows[i].date
  }

  /** The summary's profit factor, average win and loss, risk/reward and
      segment line are the metrics of the per-date totals of the daily
      table (not of individual trades) and the label of the Segment column. */
  lemma RunFigures(log: TradeLog)
    requires |log.trades| > 0
    ensures var s := Run(log).value.summary;
      var d := Totals(DailyPnl(log.trades));
      && s.profitFactor == ProfitFactor(d)
      && s.avgWin == AvgWin(d)
      && s.avgLoss == AvgLoss(d)
      && s.riskReward == RiskReward(d)
      && s.segments == SegmentLabel(log.hasSegment, SegmentColumn(log.trades))
  {
    GroupSumSize(DateFlows(log.trades));
    EmptyKeys(DateFlows(log.trades));
  }

  /** The hours at which trades were executed. */
  function TradeHours(ts: seq<Trade>): set<int>
  {
    set t | t in ts :: t.hour as int
  }

  /** The hour keys of the flows are exactly the hours traded. */
  lemma HourFlowKeys(ts: seq<Trade>)
    ensures FlowKeys(HourFlows(ts)) == TradeHours(ts)
  {
    var fs := HourFlows(ts);
    forall k | k in FlowKeys(fs) ensures k in TradeHours(ts) {
      FlowKeysIndex(fs, k);
      var n :| 0 <= n < |fs| && fs[n].key == k;
      assert ts[n] in ts;
    }
    forall k | k in TradeHours(ts) ensures k in FlowKeys(fs) {
      var t :| t in ts && t.hour as int == k;
      var n :| 0 <= n < |ts| && ts[n] == t;
      assert fs[n].key == k;
      FlowKeysIndex(fs, k);
    }
  }

  /** Net profit is the sum of all trade cashflows, and it is where the
      equity curve ends: the last row's cumulative P&L. */
  lemma RunNetProfit(log: TradeLog)
    requires |log.trades| > 0
    ensures var rep := Run(log).value;
      |rep.daily| > 0 && rep.daily[|rep.daily| - 1].cumulative == rep.summary.netProfit == Sum(Cashflows(log.trades))
  {
    RunParts(log);
    DailyTableEndsAtNetProfit(log.trades);
  }

  lemma DailyTableEndsAtNetProfit(ts: seq<Trade>)
    requires |ts| > 0
    ensures var rows := DailyRows(DailyPnl(ts));
      |rows| > 0 && rows[|rows| - 1].cumulative == Sum(Cashflows(ts))
  {
    var d := Totals(DailyPnl(ts));
    GroupSumSize(DateFlows(ts));
    EmptyKeys(DateFlows(ts));
    GroupSumTotal(DateFlows(ts));
    assert Amounts(DateFlows(ts)) == Cashflows(ts);
    CumSumLast(d);
  }

  /** The daily table has one row per distinct trading date, dates strictly
      ascending, and each row's cashflow is the sum of that date's trades. */
  lemma RunDailyTable(log: TradeLog)
    requires |log.trades| > 0
    ensures var rows := Run(log).value.daily;
      && (forall i, j :: 0 <= i < j < |rows| ==> rows[i].date < rows[j].date)
      && RowDates(rows) == TradeDates(log.trades)
      && (forall i :: 0 <= i < |rows| ==> rows[i].cashflow == KeyTotal(DateFlows(log.trades), rows[i].date))
  {
    RunParts(log);
    DailyTableDates(log.trades);
    DailyTableTotals(log.trades);
  }

  /** The cumulative, peak and drawdown columns of a daily table follow
      `cumsum`, `cummax` and their difference (lines 48-50). */
  predicate FollowsEquityCurve(rows: seq<DailyRow>)
  {
    && |rows| > 0
    && rows[0].cumulative == rows[0].cashflow && rows[0].peak == rows[0].cumulative
    && (forall i :: 0 < i < |rows| ==> rows[i].cumulative == rows[i - 1].cumulative + rows[i].cashflow)
    && (forall i :: 0 < i < |rows| ==> rows[i].peak == if rows[i - 1].peak < rows[i].cumulative then rows[i].cumulative else rows[i - 1].peak)
    && (forall i :: 0 <= i < |rows| ==> rows[i].drawdown == rows[i].cumulative - rows[i].peak <= 0)
  }

  /** The reported daily table carries the equity curve of its cashflows. */
  lemma RunEquityCurve(log: TradeLog)
    requires |log.trades| > 0
    ensures FollowsEquityCurve(Run(log).value.daily)
  {
    RunParts(log);
    DailyRowsCurve(DailyPnl(log.trades));
  }

  lemma DailyRowsCurve(daily: seq<Bucket>)
    requires |daily| > 0
    ensures FollowsEquityCurve(DailyRows(daily))
  {
  }

  lemma DailyTableDates(ts: seq<Trade>)
    ensures RowDates(DailyRows(DailyPnl(ts))) == TradeDates(ts)
  {
    var fs := DateFlows(ts);
    var daily := DailyPnl(ts);
    var rows := DailyRows(daily);
    forall k | k in RowDates(rows) ensures k in TradeDates(ts) {
      var i :| 0 <= i < |rows| && rows[i].date == k;
      BucketKeysIndex(daily, k);
      FlowKeysIndex(fs, k);
      var n :| 0 <= n < |fs| && fs[n].key == k;
      assert ts[n] in ts;
    }
    forall k | k in TradeDates(ts) ensures k in RowDates(rows) {
      var t :| t in ts && t.date == k;
      var n :| 0 <= n < |ts| && ts[n] == t;
      assert fs[n].key == k;
      FlowKeysIndex(fs, k);
      BucketKeysIndex(daily, k);
      var i :| 0 <= i < |daily| && daily[i].key == k;
      assert rows[i].date == k;
    }
  }

  lemma DailyTableTotals(ts: seq<Trade>)
    ensures var rows := DailyRows(DailyPnl(ts));
      forall i :: 0 <= i < |rows| ==> rows[i].cashflow == KeyTotal(DateFlows(ts), rows[i].date)
  {
    var fs := DateFlows(ts);
    var rows := DailyRows(DailyPnl(ts));
    forall i | 0 <= i < |rows|
      ensures rows[i].cashflow == KeyTotal(fs, rows[i].date)
    {
      RowTotal(fs, i);
    }
  }

  /** The summary's maximum drawdown is the deepest drawdown of the daily table. */
  lemma RunMaxDrawdown(log: TradeLog)
    requires |log.trades| > 0
    ensures var rep := Run(log).value;
      && rep.summary.maxDrawdown <= 0
      && (exists i :: 0 <= i < |rep.daily| && rep.daily[i].drawdown == rep.summary.maxDrawdown)
      && (forall i :: 0 <= i < |rep.daily| ==> rep.summary.maxDrawdown <= rep.daily[i].drawdown)
  {
    RunParts(log);
    DeepestRow(DailyPnl(log.trades));
  }

  lemma DeepestRow(daily: seq<Bucket>)
    requires |daily| > 0
    ensures var rows := DailyRows(daily);
      var m := MaxDrawdown(CumSum(Totals(daily)));
      && (exists i :: 0 <= i < |rows| && rows[i].drawdown == m)
      && (forall i :: 0 <= i < |rows| ==> m <= rows[i].drawdown)
  {
    var c := CumSum(Totals(daily));
    var rows := DailyRows(daily);
    var i :| 0 <= i < |c| && Drawdowns(c)[i] == MaxDrawdown(c);
    assert rows[i].drawdown == MaxDrawdown(c);
  }

  /** The summary's win rate is the percentage of daily rows that closed positive. */
  lemma RunWinRate(log: TradeLog)
    requires |log.trades| > 0
    ensures var rep := Run(log).value;
      && |rep.daily| > 0
      && 0.0 <= rep.summary.winRate <= 100.0
      && IsPercentOf(rep.summary.winRate, |WinningDays(CashflowColumn(rep.daily))|, |rep.daily|)
  {
    RunParts(log);
    RowCashflows(DailyPnl(log.trades));
  }

  /** The hourly table has one row per hour at which trades were executed,
      hours ascending, each row holding the sum of that hour's trades, and
      it accounts for the whole net profit. */
  lemma RunHourlyTable(log: TradeLog)
    requires |log.trades| > 0
    ensures var h := Run(log).value.hourly;
      && |h| <= 24
      && BucketKeys(h) == TradeHours(log.trades)
      && (forall i, j :: 0 <= i < j < |h| ==> h[i].key < h[j].key)
      && (forall i :: 0 <= i < |h| ==> 0 <= h[i].key < 24 && h[i].total == KeyTotal(HourFlows(log.trades), h[i].key))
      && Sum(Totals(h)) == Run(log).value.summary.netProfit
  {
    RunParts(log);
    HourlyTableTotals(log.trades);
    HourFlowKeys(log.trades);
  }

  lemma HourlyTableTotals(ts: seq<Trade>)
    ensures var h := HourlyPnl(ts);
      && (forall i :: 0 <= i < |h| ==> h[i].total == KeyTotal(HourFlows(ts), h[i].key))
      && Sum(Totals(h)) == Sum(Cashflows(ts))
  {
    var fs := HourFlows(ts);
    var h := HourlyPnl(ts);
    forall i | 0 <= i < |h| ensures h[i].total == KeyTotal(fs, h[i].key) {
      RowTotal(fs, i);
    }
    GroupSumTotal(fs);
    assert Amounts(fs) == Cashflows(ts);
  }

  /** The Cashflow column of the daily table. */
  function CashflowColumn(rows: seq<DailyRow>): (c: seq<int>)
    ensures |c| == |rows|
    ensures forall i :: 0 <= i < |rows| ==> c[i] == rows[i].cashflow
  {
    if |rows| == 0 then [] else [rows[0].cashflow] + CashflowColumn(rows[1..])
  }

  lemma RowCashflows(daily: seq<Bucket>)
    ensures CashflowColumn(DailyRows(daily)) == Totals(daily)
  {
  }

  lemma EmptyKeys(fs: seq<Flow>)
    ensures |FlowKeys(fs)| == 0 <==> |fs| == 0
  {
    if |fs| > 0 {
      assert fs[0].key in FlowKeys(fs);
    }
  }
}
