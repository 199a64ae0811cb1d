# Trading performance audit — metrics pipeline in Dafny

This project models the metrics core of `generate_audit` in `audit_script.py`.
The script reads a trade-execution log and reduces it to a performance audit.
The steps are:

- each trade row gets a signed cashflow: a sale is an inflow, everything else an outflow;
- cashflows are summed per calendar date into a daily table and per hour of day into an hourly table;
- the daily table is extended with cumulative P&L, its running peak and the drawdown below that peak;
- the daily cashflows are reduced to the scalar figures of the report: net profit, win rate,
  average win and loss, gross loss, profit factor, risk/reward and maximum drawdown;
- the distinct Segment values are joined into the report's segment line.

Money is `int` (the smallest currency unit). Ratios are `real`. Dates are ordered integer keys.
Hours are integers in `0..23`. The log is a `Trades.TradeLog`: its rows, plus a flag that says
whether the input had a Segment column.

Modules, in pipeline order:

| module | what it holds |
|---|---|
| `Results` | `Result` type; a failure is the aborted run of the script's `except` handler |
| `SeqMath` | sum, minimum, positive/negative filters over integer sequences |
| `Trades` | trade rows, Python whitespace trimming and upper-casing, the SELL test, `Cashflow` |
| `Grouping` | group-by-sum as a strictly ascending association list (`GroupSum`) with its reference definition `KeyTotal` |
| `Equity` | `cumsum` / `cummax` scans, drawdown series, maximum drawdown |
| `Metrics` | winning/losing days, win rate and the guarded divisions |
| `Segments` | first-appearance `unique`, `", ".join`, the fallback label |
| `Audit` | the whole pipeline `Run` and the lemmas that tie its outputs together |
| `Scenarios` | small worked inputs: one profitable day; a gain then a loss; only losses; unusual side texts |

The model follows the code in three places where a reader might expect stricter behaviour:

- A side other than SELL (after trimming and upper-casing) is not rejected. The code books it as a purchase, with cashflow `-value`. `Scenarios.UnknownSideIsOutflow` shows this for `HOLD`.
- An empty log is not reported gracefully. The first step to fail is the cashflow column (audit_script.py:34): `apply` on an empty frame returns a frame, which cannot be stored as a single column. Had it passed, the win rate (audit_script.py:59) would divide by zero daily rows. Either exception is caught by the outer handler (audit_script.py:169-172), and the run ends with no outputs. `Audit.Run` returns `Failure(NoTradingDays)` exactly when the log has no trades.
- The hourly table is in ascending hour order, because `groupby` sorts its keys.

## Model

| member | source | states |
|---|---|---|
| `Trades.Cashflow` | audit_script.py:34 | the cashflow's magnitude is the trade value; it is `+value` exactly when the trimmed, upper-cased side reads SELL (or the value is 0) |
| `Trades.PaddedSellIsSale` | audit_script.py:34 | any casing of SELL with any Python whitespace around it counts as a sale |
| `Trades.SaleIsPaddedSell` | audit_script.py:34 | conversely, every side counted as a sale is a casing of SELL with whitespace around it |
| `Trades.NoSIsOutflow` | audit_script.py:34 | a side with no character that upper-cases to S (BUY, HOLD, garbage) gives the outflow `-value`; there is no error case |
| `Trades.TrimStart` | audit_script.py:34 | the result is a suffix of the side text, what was removed is all whitespace, and the result does not start with whitespace |
| `Trades.TrimEnd` | audit_script.py:34 | the result is a prefix of the side text, what was removed is all whitespace, and the result does not end with whitespace |
| `Trades.Trim` | audit_script.py:34 | `strip()` keeps a contiguous slice of the text with only whitespace on either side, and that slice neither starts nor ends with whitespace |
| `Trades.Upper` | audit_script.py:34 | upper-casing keeps the length and maps each character on its own |
| `Trades.SellSideSpellsSell` | audit_script.py:34 | the side test holds exactly when the stripped side spells SELL in some mix of letter cases |
| `Trades.TrimPadded` | audit_script.py:34 | `strip()` removes exactly the surrounding whitespace and keeps the inner text |
| `Grouping.Insert` | audit_script.py:47 | adding one cashflow to an ascending row list keeps keys strictly ascending and adds its key to the key set |
| `Grouping.InsertLookup` | audit_script.py:47 | adding a cashflow changes only its own key's total, by its amount |
| `Grouping.GroupSum` | audit_script.py:47 | the group-by rows have strictly ascending keys, and their key set is the set of keys of the input |
| `Grouping.GroupSumLookup` | audit_script.py:47 | each key's row total equals the sum of the cashflows filed under that key; a key with no row reads 0 |
| `Grouping.GroupSumTotal` | audit_script.py:47 | the row totals add up to the sum of all input cashflows |
| `Grouping.GroupSumSize` | audit_script.py:47 | there are exactly as many rows as distinct keys |
| `Grouping.RowTotal` | audit_script.py:47 | every row's total is the sum of the cashflows with that row's key |
| `Equity.CumSum` | audit_script.py:48 | the cumulative series has one value per day, and value `i` is the sum of days `0..i` |
| `Equity.CumSumFrom` | audit_script.py:48 | element `i` of the cumulative scan is the seed plus the sum of the first `i+1` daily values |
| `Equity.CumSumRecurrence` | audit_script.py:48 | `cum[0] = daily[0]` and `cum[i] = cum[i-1] + daily[i]` |
| `Equity.CumSumLast` | audit_script.py:48 | the last cumulative value is the total of the daily series |
| `Equity.CumMaxFrom` | audit_script.py:49 | the running-max scan is non-decreasing, at least the seed, bounds every earlier value, and each element is the seed or an earlier value |
| `Equity.CumMax` | audit_script.py:49 | the peak is non-decreasing; `peak[i]` is at least every `cum[j]` with `j <= i` and equals one of them |
| `Equity.CumMaxRecurrence` | audit_script.py:49 | `peak[0] = cum[0]` and `peak[i] = max(peak[i-1], cum[i])` |
| `Equity.Drawdowns` | audit_script.py:50 | every drawdown is `<= 0` and the first one is 0 |
| `Equity.DrawdownZeroAtHigh` | audit_script.py:50 | a day's drawdown is 0 exactly when its cumulative value is at least every earlier one |
| `SeqMath.Min` | audit_script.py:67 | the minimum of a non-empty series is one of its values and no larger than any of them |
| `Equity.MaxDrawdown` | audit_script.py:67 | the maximum drawdown is one of the drawdowns, no larger than any of them, and `<= 0` |
| `Equity.MaxDrawdownZero` | audit_script.py:67 | the maximum drawdown is 0 exactly when the cumulative series never decreases |
| `Equity.MaxDrawdownIsLargestFall` | audit_script.py:48-50 | the maximum drawdown is minus the largest fall from an earlier cumulative value to a later one |
| `SeqMath.Positives` | audit_script.py:56 | the winning-day filter keeps only positive values, every value it keeps occurs among the days, and it never keeps more values than there are days |
| `SeqMath.PositivesCounted` | audit_script.py:56 | each positive value is kept exactly as many times as it occurs among the days, so the number of winning days is fixed |
| `SeqMath.Negatives` | audit_script.py:57 | the losing-day filter keeps only negative values, every value it keeps occurs among the days, and it never keeps more values than there are days |
| `SeqMath.NegativesCounted` | audit_script.py:57 | each negative value is kept exactly as many times as it occurs among the days, so the number of losing days is fixed |
| `Metrics.DaySplit` | audit_script.py:56-57 | winning and losing days are disjoint, break-even days are in neither, the three groups count all days, and the winning and losing totals add up to the net total |
| `Metrics.WinRate` | audit_script.py:59 | fails exactly when there are no days; otherwise lies in [0, 100], is `wins / days * 100`, is 100 exactly when every day is won, and is 0 exactly when none is |
| `Metrics.Mean` | audit_script.py:60-61 | mean times count is the sum |
| `Metrics.AvgWin` | audit_script.py:60 | is 0 exactly when there is no winning day, otherwise positive, and times the number of winning days gives their total |
| `Metrics.AvgLoss` | audit_script.py:61 | is non-negative, is 0 exactly when there is no losing day, and times the number of losing days gives minus their total |
| `Metrics.GrossLoss` | audit_script.py:64 | is minus the losing days' total, non-negative, and 0 exactly when there is no losing day |
| `Metrics.ProfitFactor` | audit_script.py:65 | is 0 when there is no losing day; otherwise times the gross loss gives the winning total; non-negative; 0 exactly when wins or losses are missing |
| `Metrics.RiskReward` | audit_script.py:68 | is 0 when the average loss is 0; otherwise times the average loss gives the average win; 0 exactly when wins or losses are missing |
| `Metrics.BalancedDaysRatiosAgree` | audit_script.py:60-68 | with as many winning as losing days, profit factor and risk/reward are equal |
| `Segments.FirstIndex` | audit_script.py:38 | the position found holds the value and no earlier position does |
| `Segments.Unique` | audit_script.py:38 | the distinct segments have no repeats, the same members as the column, and are in order of first appearance |
| `Segments.Join` | audit_script.py:39 | an empty list joins to "" and a single part to itself; otherwise the length is the parts' lengths plus one separator between each pair |
| `Segments.OffsetClosedForm` | audit_script.py:39 | part `i` of the join starts after the lengths of the earlier parts plus one separator for each |
| `Segments.JoinPartAt` | audit_script.py:39 | every part appears unchanged in the joined text at its offset |
| `Segments.JoinSeparatorAfter` | audit_script.py:39 | the separator follows every part but the last; with the length of `Join` this fixes the text character by character |
| `Segments.SegmentLabel` | audit_script.py:37-41 | with no Segment column the label is the fixed fallback text; otherwise it has the length of the joined distinct segments |
| `Segments.SingleSegmentLabel` | audit_script.py:37-39 | a log whose rows all name one segment is labelled with that segment alone |
| `Audit.Cashflows` | audit_script.py:34 | the cashflow column has one entry per trade, each the signed value of that trade |
| `Audit.DailyPnl` | audit_script.py:47 | the daily rows have strictly ascending dates, and their dates are the dates of the trades |
| `Audit.HourlyPnl` | audit_script.py:133-134 | hourly rows have strictly ascending hours, and their hours are the trade hours, all in 0..23, so there are at most 24 rows |
| `Audit.HourFlowKeys` | audit_script.py:133-134 | the hours filed for grouping are exactly the hours at which some trade took place |
| `Audit.DailyRows` | audit_script.py:47-50 | the daily table keeps the grouped dates and cashflows, and its cumulative, peak and drawdown columns follow the `cumsum` / `cummax` recurrences with drawdown `<= 0` |
| `Audit.Run` | audit_script.py:34-68 | the run aborts exactly when the log has no trades (the cashflow column fails first, the win rate next); otherwise the trade count is the number of rows |
| `Audit.RunFigures` | audit_script.py:37-68 | the reported profit factor, average win, average loss and risk/reward are those of the daily table's cashflows, and the segment line is the label of the log's Segment column |
| `Audit.RunNetProfit` | audit_script.py:48-54 | net profit is the sum of all trade cashflows and equals the last row's cumulative P&L |
| `Audit.RunDailyTable` | audit_script.py:47 | daily dates are strictly ascending; the dates in the table are exactly the dates traded; each row's cashflow is the sum of that date's trades |
| `Audit.RunMaxDrawdown` | audit_script.py:67 | the reported maximum drawdown is `<= 0` and is the deepest drawdown in the daily table |
| `Audit.RunWinRate` | audit_script.py:56-59 | the daily table is not empty; the reported win rate is in [0, 100] and is the percentage of daily rows with positive cashflow |
| `Audit.RunEquityCurve` | audit_script.py:48-50 | the reported daily table's cumulative, peak and drawdown columns follow the `cumsum` and `cummax` recurrences, and drawdown is cumulative minus peak, never positive |
| `Audit.RunHourlyTable` | audit_script.py:133-134 | the hours in the table are exactly the hours traded, strictly ascending, at most 24; each row is the sum of that hour's trades; the rows add up to net profit |
| `Scenarios.GainThenLossEquity` | audit_script.py:48-50 | days +1000, -400: cumulative [1000, 600], peak [1000, 1000], drawdown [0, -400], maximum drawdown -400 |
| `Scenarios.GainThenLossRatios` | audit_script.py:59-68 | days +1000, -400: win rate 50, average win 1000, average loss 400, profit factor 2.5, risk/reward 2.5 |
| `Scenarios.OnlyLosses` | audit_script.py:59-68 | only losing days: win rate 0, average win 0, profit factor 0, risk/reward 0 |
| `Scenarios.SameDayCashflows` | audit_script.py:34 | a BUY for 1000 gives -1000 and a SELL for 1500 gives +1500 |
| `Scenarios.SameDayGrouping` | audit_script.py:47 | those two cashflows on one date group into one row of +500 |
| `Scenarios.SameDayMetrics` | audit_script.py:48-68 | a single +500 day: no drawdown, win rate 100, profit factor and risk/reward fall back to 0 |
| `Scenarios.UnknownSideIsOutflow` | audit_script.py:34 | a HOLD side is booked as an outflow |
| `Scenarios.PaddedLowerCaseSell` | audit_script.py:34 | the side `" sell "` is booked as an inflow |
| `Scenarios.EmptyLogAborts` | audit_script.py:169-172 | an empty log produces no report: the cashflow column of line 34 fails and the handler ends the run |

## Left out

- Reading the CSV, the file-existence check and path building (audit_script.py:15-29) are filesystem I/O. The model starts from loaded rows.
- Stripping column names and `pd.to_datetime` parsing of dates and times (audit_script.py:30-31, 132) are library calls. Dates and hours arrive already parsed, so the model has no parse errors. In the script, a bad Time value fails only after the text report has been written. That partial-output case is not modelled.
- The report text, number formatting, the audit timestamp and console printing (audit_script.py:74-126) are presentation with a clock dependency.
- The matplotlib/seaborn dashboard, including bar colours by sign (audit_script.py:135-167), is rendering through foreign libraries.
- Floating-point rounding of `float64` sums and means is left out. Money is exact `int` and ratios are exact `real`.
- The traceback printing in the exception handler (audit_script.py:169-172) is console output. Only its effect is modelled: the run produces no outputs (`Failure`).
- Non-string cells are not modelled. A missing side would make `.strip()` raise. A missing segment value would make the join raise. Sides and segments are `string`.
- Trades.UpperChar: maps only `a`-`z` and U+017F (long s) and leaves every other character unchanged. These are the only characters Python upper-cases to S, E or L. No multi-character upper-case expansion contains "SE", "EL" or "LL". So the test `upper() == "SELL"` is decided exactly as in Python, but `Upper` is not a full model of `str.upper()`.
- Audit.Run: its own contract states only the abort condition and the trade count. `Audit.RunFigures`, `Audit.RunNetProfit`, `Audit.RunWinRate`, `Audit.RunMaxDrawdown`, `Audit.RunDailyTable`, `Audit.RunEquityCurve` and `Audit.RunHourlyTable` state the rest of a successful run.
- Audit.Run: the abort condition holds for logs whose every row has a date. The model makes the date mandatory. In the script a missing Date becomes NaT, which `groupby` drops (audit_script.py:47); a log with rows but no dates at all yields an empty daily table, and the win rate then divides by zero (audit_script.py:59).
- Audit.RunNetProfit: equality with the daily table's last cumulative value holds only when every row has a date. In the script, rows with NaT dates are dropped by `groupby` (audit_script.py:47) but still counted by `len` and `sum` (audit_script.py:53-54).
- Audit.RunHourlyTable: the hourly rows add up to net profit only when every row has a time. In the script, a missing Time gives no hour, and `groupby` drops that row (audit_script.py:134), while net profit still includes it (audit_script.py:54).
- Segments.SegmentLabel: states the fallback text and the length of the joined label. The character-by-character layout of the join is stated by `Segments.JoinPartAt` and `Segments.JoinSeparatorAfter`.
