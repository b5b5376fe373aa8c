# AlphaSuite market scanners — a verified model

This project models the scanning core of AlphaSuite, a stock-analysis toolkit.
A scanner picks candidate companies from the company table, loads their price
histories, drops illiquid names, runs a per-company test over the history and
turns the companies that pass into a results table.

The model covers the following parts of the system:

- **Orchestrator** (`ScannerSdk`, `PriceHistory`, `Tables`, `Records`, `Query`).
  It is the `BaseScanner.run_scan` template and has these steps:
  - the default candidate query;
  - the candidate map keyed by company id;
  - split adjustment of open, high, low and close by the reversed cumulative split coefficient;
  - the rolling average-volume liquidity filter;
  - the per-company loop in ascending id order, where an exception aborts the whole scan;
  - the output formatting, with leading columns first and a stable sort on the sort column.
- **Fifteen pattern detectors**, one module each:
  - new 52-week highs and lows;
  - golden and death crosses;
  - selling climax and Wyckoff spring;
  - gap-and-go;
  - bullish and bearish RSI divergence, and bearish rally failure;
  - RSI oversold;
  - CAN SLIM;
  - Lorenz regime flip;
  - Bollinger-band squeeze breakout and extreme reversal.

  Each detector has three parts:
  - a predicate saying when the pattern holds `i` bars back;
  - a function finding the first offset that matches (`Detect`);
  - a `Scan` method that walks the offsets as the source does and updates the company record in place. Its contract ties the result to the specification function.
- **Fundamental screens** (`GenericScreener`, `Fundamentals`, `Garp`, `UndervaluedPb`, `HighDividendYield`):
  - the user-configurable screener, which has database filters that become query conditions and technical filters evaluated on the history;
  - the GARP, low price-to-book and high-dividend-yield screens, which filter in the query and return the record minus `id` and `isactive`.
- **Strongest industries** (`StrongestIndustries`). The steps are:
  - select the companies that carry an RS percentile;
  - keep the industries with enough members;
  - rank the industries by mean RS;
  - take the top N industries and the top K stocks of each;
  - sort by industry strength, then stock strength.
- **All-in-one strategy** (`AllInOne`): five momentum rules run over a symbol-to-history map. Each category is ranked, cut to its size, and kept only when it is non-empty.

Numbers are unbounded reals. A division the source does not guard is
`Common.Div`, which yields a finite value, a signed infinity or NaN as
floating-point division does. Indicator series (SMA, EMA, RSI, MACD, STOCH,
BBANDS) come from a parameter `lib: Talib`. It maps a call and a history to
a series of optional values, one per bar, with `None` for NaN.

Where the repository's own text promises more than its code does, the model
follows the code:

- The generic screener recognises only `'=='` for equality. The `'='` spelling adds no comparison, only the not-null condition. The Market Scanner page (`pages/2_🔍_Market_Scanner.py`, line 374) nevertheless builds its volume look-back filter with op `"="`.
- The strongest-industries docstring (`scanners/strongest_industries.py`, line 19) promises liquidity and volume filters. The scan declares a minimum average volume and a volume lookback but never applies them, so no liquidity filter runs there.
- When the top-K cut leaves no stocks, the strongest-industries result has the merged columns and no rows rather than being an empty frame.

## Model

| member | source | states |
|---|---|---|
| Common.Div | scanners/gap_and_go.py:55 | A non-zero divisor gives the exact quotient. 0/0 is NaN. Any other x/0 is an infinity with the sign of x. |
| Common.DivAboveIff | strategies/_all_in_one.py:12-13 | For a positive divisor, `a / b > c` holds exactly when `a > c * b`. |
| Common.DivAtMostIff | scanners/bb_squeeze_breakout.py:51-63 | For a positive divisor, `a / b <= c` holds exactly when `a <= c * b`. |
| Windows.Max | scanners/new_highs.py:53 | The maximum of a non-empty window is one of its elements and bounds all of them. |
| Windows.Min | scanners/selling_climax.py:57 | The minimum of a non-empty window is one of its elements and is below all of them. |
| Windows.ArgMin | scanners/bullish_rsi_divergence.py:60 | `idxmin` returns the first index of the lowest value: no earlier element is as low. |
| Windows.ArgMax | scanners/bearish_rsi_divergence.py:57 | `idxmax` returns the first index of the highest value: no earlier element is as high. |
| Windows.SliceBound | scanners/bb_extreme_reversal.py:55 | A negative slice bound counts from the end, as in Python slicing. |
| Windows.FirstMatch | scanners/new_highs.py:43-66 | The offset loop returns the first offset that matches, no earlier offset matches, and it returns nothing exactly when no offset in range matches. |
| Windows.FirstMatchStable | scanners/rsi_oversold.py:54 | Widening the range of offsets does not change a match already found. |
| Windows.MeanWithin | scanners/scanner_sdk.py:116 | The mean of values that lie within bounds lies within the same bounds. |
| Bars.Column | scanners/scanner_sdk.py:116 | A column of the history has one entry per bar, holding that bar's field. |
| Bars.ClosePositionBounds | scanners/selling_climax.py:60-64 | The close position of a bar whose close lies within its range is between 0 and 100 percent. |
| Bars.LowestInWindow | scanners/bullish_rsi_divergence.py:56-60 | The first bar of a window holding its lowest low: no bar of the window is lower and every earlier bar is strictly higher. |
| Bars.HighestInWindow | scanners/bearish_rsi_divergence.py:54-57 | The first bar of a window holding its highest high: no bar of the window is higher and every earlier bar is strictly lower. |
| Records.Delete | scanners/new_highs.py:58-59 | Deleting a key removes exactly that key and leaves a well-formed record. |
| Records.DeleteAll | scanners/new_highs.py:58-59 | Deleting the keys that are present removes exactly those keys and never fails. |
| Records.DeleteStrict | scanners/garp.py:48 | An unconditional delete succeeds exactly when every key is present. It then removes them; otherwise it raises KeyError. |
| Records.Put | scanners/new_highs.py:61-64 | Assigning a key sets its value. A new key is appended to the key order; an existing key keeps its place. |
| Records.PutAll | scanners/new_highs.py:61-64 | After a series of assignments the keys are the old keys plus the assigned ones, and untouched keys keep their values. |
| Records.Enriched | scanners/new_highs.py:58-64 | After dropping keys and assigning fields, the record holds the assigned values and the surviving old values, and it is not empty. |
| Records.EnrichedAt | scanners/new_highs.py:61-64 | With distinct field names, each assigned field holds its assigned value after the update. |
| Records.CompanyInfo.constructor | scanners/scanner_sdk.py:102 | A fresh company record holds the row's fields in column order. |
| Records.CompanyInfo.DiscardKeys | scanners/generic_screener.py:167-168 | The in-place delete leaves the record equal to `DeleteAll` of the old record. |
| Records.CompanyInfo.Enrich | scanners/new_highs.py:58-64 | The in-place update leaves the record equal to `Enriched` of the old record. |
| Records.CompanyInfo.DeleteKeys | scanners/garp.py:48 | The in-place unconditional delete reports failure exactly when `DeleteStrict` raises. On success the record is the reduced one. |
| Records.CompanyInfo.Assign | scanners/canslim.py:74-75 | The in-place assignment leaves the record equal to `Put` of the old record. |
| Query.ContradictoryBoundsSelectNothing | scanners/undervalued_pb.py:64-66 | A query holding `column > lo` and `column < hi` with `hi <= lo` selects no company. |
| Tables.Head | strategies/_all_in_one.py:16 | `head(n)` keeps the first n rows, or all of them when there are fewer. A negative n drops that many from the end. |
| Tables.Insert | scanners/scanner_sdk.py:148-149 | Inserting into a sorted sequence keeps it sorted and adds exactly one element. |
| Tables.ConsSorted | scanners/scanner_sdk.py:148-149 | An element at or below every element of a sorted sequence can be put in front of it. |
| Tables.HeadBelowInserted | scanners/scanner_sdk.py:148-149 | When the new element goes after the head, the head stays at or below everything that follows it. |
| Tables.Sort | scanners/scanner_sdk.py:148-149 | The sort yields a sorted permutation of its input. |
| Tables.KeyOrderTotal | scanners/scanner_sdk.py:148-149 | The sort-key order, with NaN placed last in both directions, is a total preorder. |
| Tables.SortRows | scanners/scanner_sdk.py:148-149 | Sorting rows by a column yields a permutation ordered by that column's key. |
| Tables.Reorder | scanners/scanner_sdk.py:142-146 | The column order puts the existing leading columns first, in their order. The rest are exactly the other columns, in their original order. With distinct names the result is a permutation of the columns. |
| Tables.ReorderPermutation | scanners/scanner_sdk.py:142-146 | The reordered columns are a permutation of the frame's columns. |
| Tables.LeadingOrderKept | scanners/scanner_sdk.py:143 | Leading columns keep their relative order in the result. |
| Tables.OtherOrderKept | scanners/scanner_sdk.py:144-145 | The columns after the leading ones keep their original relative order. |
| Tables.RejectKeepsOrder | scanners/scanner_sdk.py:144 | Filtering out a set of names keeps the relative order of the names that remain. |
| Tables.RejectIsSelect | scanners/scanner_sdk.py:143-144 | Rejecting a set of names keeps the same names as selecting the complementary set. |
| Tables.RejectAgrees | scanners/scanner_sdk.py:144 | Two drop sets that agree on a sequence's names reject the same names from it. |
| Tables.AppendNewIsReject | scanners/scanner_sdk.py:135 | With distinct keys, a record contributes exactly its keys not yet seen, in its own key order. |
| Tables.ColumnsOf | scanners/scanner_sdk.py:135 | The frame's columns are the distinct keys of all rows; the order is stated by the three lemmas below. |
| Tables.ColumnsOfLast | scanners/scanner_sdk.py:135 | Adding a record keeps the earlier columns and appends the record's new keys in its own order. |
| Tables.ColumnsPrefix | scanners/scanner_sdk.py:135 | The columns of the first k records are a prefix of the frame's columns. |
| Tables.ColumnsFirstSeen | scanners/scanner_sdk.py:135 | A column placed before another appears in some record no later than the first record holding the other. |
| Tables.Format | scanners/scanner_sdk.py:135-151 | No rows gives the empty frame. Otherwise: (a) the rows are a permutation of the results; (b) the columns are the keys of the results, in the order `Reorder` gives to the first-seen column order; (c) the rows are sorted by the sort column when it exists and left in order when it does not. |
| PriceHistory.Coefficient | scanners/scanner_sdk.py:194-195 | A stored split coefficient of 0 is read as 1; every coefficient is non-zero. |
| PriceHistory.CumSplit | scanners/scanner_sdk.py:197 | The reversed cumulative product of coefficients is never zero. |
| PriceHistory.SplitAdjust | scanners/scanner_sdk.py:190-199 | Open, high, low and close are divided by the bar's cumulative split factor. Date, adjusted close and volume are kept. |
| PriceHistory.UnitSplitsChangeNothing | scanners/scanner_sdk.py:195-199 | A history without splits keeps every price. |
| PriceHistory.SingleSplit | scanners/scanner_sdk.py:197-199 | One split of factor c divides every price up to and including its bar by c and leaves the later bars alone. |
| PriceHistory.LatestWindow | scanners/scanner_sdk.py:116 | The latest rolling window covers the last min(n, window) volumes. |
| PriceHistory.LatestAvgVolume | scanners/scanner_sdk.py:116-120 | The last rolling average, with `min_periods=1`, is the mean of the latest window. |
| PriceHistory.LatestIsRolling | scanners/scanner_sdk.py:116-120 | The last rolling mean covers exactly the latest window of volumes. |
| PriceHistory.LiquidWhenEveryVolumeReaches | scanners/scanner_sdk.py:121-123 | A company whose every volume in the window reaches the floor passes the inclusive filter. |
| PriceHistory.IlliquidWhenEveryVolumeBelow | scanners/scanner_sdk.py:121-123 | A company whose every volume in the window is below the floor is dropped. |
| PriceHistory.LongWindowAveragesEverything | scanners/scanner_sdk.py:116 | A window at least as long as the history averages the whole history. |
| NewHighs.Detect | scanners/new_highs.py:36-66 | A match needs 252 + L bars and is the first offset whose high is at least every high of the 252 bars before it. None exactly when no offset qualifies. |
| NewHighs.MatchOutput | scanners/new_highs.py:58-64 | A match reports the breakout bar's high, its close and the close as a percent of the high, and drops id, isactive and the summary. |
| NewHighs.FieldsOutput | scanners/new_highs.py:58-64 | For a match at any offset, the record holds the bar's high, its close and the percent of the high, and none of the dropped keys. |
| NewHighs.WindowTest | scanners/new_highs.py:51-56 | Comparing the bar's high with the maximum of the prior 252 highs is the same as comparing it with each of them. |
| NewHighs.Scan | scanners/new_highs.py:36-68 | The loop over offsets returns null or the updated record exactly as `Evaluate` of the old record prescribes. |
| NewLows.Detect | scanners/new_lows.py:37-67 | A match needs 252 + L bars and is the first offset whose low is at most every low of the 252 bars before it. None exactly when no offset qualifies. |
| NewLows.MatchOutput | scanners/new_lows.py:59-65 | A match reports the breakdown bar's low, its close and the percent distance from the low. |
| NewLows.FieldsOutput | scanners/new_lows.py:59-65 | For a match at any offset, the record holds the bar's low, its close and the distance from the low, and none of the dropped keys. |
| NewLows.WindowTest | scanners/new_lows.py:51-57 | Comparing the bar's low with the minimum of the prior 252 lows is the same as comparing it with each of them. |
| NewLows.PctFromLowSign | scanners/new_lows.py:64 | The distance from the low is non-negative exactly when the close is at or above the low. |
| NewLows.Scan | scanners/new_lows.py:37-69 | The loop agrees with `Evaluate` of the old record. |
| GoldenCross.Detect | scanners/golden_cross.py:39-69 | A match exists exactly when the price is not extended above the fast average and the first 50/200 up-cross within L + 1 bars exists. That cross is the first one. |
| GoldenCross.Scan | scanners/golden_cross.py:39-71 | The loop stops at the first cross, reports only a non-extended price, and agrees with `Evaluate`. |
| DeathCross.Detect | scanners/death_cross.py:38-66 | A match exists exactly when the price is below the fast average and the first 50/200 down-cross within L + 1 bars exists. |
| DeathCross.NeverBothCrosses | scanners/death_cross.py:52 | At one offset the fast average cannot cross both above and below the slow one. |
| DeathCross.NeverSameOffset | scanners/death_cross.py:50-57 | When both scanners match, they report different cross offsets. |
| DeathCross.Scan | scanners/death_cross.py:38-68 | The loop agrees with `Evaluate` of the old record. |
| SellingClimax.Detect | scanners/selling_climax.py:41-75 | A match is the first offset with all three conditions: a new low, a volume spike and a reversal close. None exactly when no offset qualifies. |
| SellingClimax.ClimaxClosePosition | scanners/selling_climax.py:60-65 | The reported close position lies above the reversal threshold and at most 100 percent. |
| SellingClimax.Scan | scanners/selling_climax.py:41-75 | The loop, which skips doji bars and missing averages, agrees with `Evaluate`. |
| WyckoffSpring.NonPositiveLowNeverTight | scanners/wyckoff_spring.py:69-70 | A box whose low is not positive never counts as tight. |
| WyckoffSpring.TightBoxHasHeight | scanners/wyckoff_spring.py:69-70 | A tight box has a positive low and a high above it. |
| WyckoffSpring.Detect | scanners/wyckoff_spring.py:44-94 | A match is the first offset with all four conditions: a tight box, a spring, a long tail and low volume. None exactly when no offset qualifies. |
| WyckoffSpring.SpringSupport | scanners/wyckoff_spring.py:63-83 | The reported support is the lowest low of the box. The spring bar's low is below it and its close is above it. |
| WyckoffSpring.BoxSupport | scanners/wyckoff_spring.py:63-73 | The support of a box is the low of one of its bars, and no bar of the box is lower. |
| WyckoffSpring.DetectIs | scanners/wyckoff_spring.py:58-92 | The first offset the loop finds to be a spring is the reported one. |
| WyckoffSpring.CheckOffset | scanners/wyckoff_spring.py:59-86 | The test for one offset is exactly `SpringAt`. |
| WyckoffSpring.Scan | scanners/wyckoff_spring.py:44-94 | The loop agrees with `Evaluate` of the old record. |
| GapAndGo.Detect | scanners/gap_and_go.py:39-68 | A match is the first offset with all three conditions: an uptrend, a gap above the minimum and a volume spike. It needs 201 + lookback bars. |
| GapAndGo.GapPctExceedsMinimum | scanners/gap_and_go.py:55-64 | The reported gap percent exceeds the minimum gap. |
| GapAndGo.GapConditionOnPrices | scanners/gap_and_go.py:55-56 | With a positive previous close, the gap test means open > previous close × (1 + min/100). |
| GapAndGo.Scan | scanners/gap_and_go.py:39-68 | The loop agrees with `Evaluate` of the old record. |
| BullishRsiDivergence.LowestBefore | scanners/bullish_rsi_divergence.py:56-60 | The look-back low day is the first day holding the window's lowest low. |
| BullishRsiDivergence.Detect | scanners/bullish_rsi_divergence.py:39-74 | A match is the first offset with a downtrend, a lower low and a higher RSI than on that day. |
| BullishRsiDivergence.DivergenceIsNewLow | scanners/bullish_rsi_divergence.py:63 | At a divergence the current low is below every low of the look-back window. |
| BullishRsiDivergence.CheckOffset | scanners/bullish_rsi_divergence.py:52-67 | The test for one offset is exactly `DivergenceAt`. |
| BullishRsiDivergence.Scan | scanners/bullish_rsi_divergence.py:39-74 | The loop agrees with `Evaluate` of the old record. |
| BearishRsiDivergence.HighestBefore | scanners/bearish_rsi_divergence.py:54-57 | The look-back high day is the first day holding the window's highest high. |
| BearishRsiDivergence.Detect | scanners/bearish_rsi_divergence.py:39-70 | A match is the first offset with an uptrend, a higher high and a lower RSI than on that day. |
| BearishRsiDivergence.DivergenceIsNewHigh | scanners/bearish_rsi_divergence.py:59 | At a divergence the current high is above every high of the look-back window. |
| BearishRsiDivergence.NotBothDivergences | scanners/bearish_rsi_divergence.py:59-63 | No offset is both a bullish and a bearish divergence, because they need opposite trends. |
| BearishRsiDivergence.CheckOffset | scanners/bearish_rsi_divergence.py:51-63 | The test for one offset is exactly `DivergenceAt`. |
| BearishRsiDivergence.Scan | scanners/bearish_rsi_divergence.py:39-70 | The loop agrees with `Evaluate` of the old record. |
| BearishRallyFailure.Detect | scanners/bearish_rally_failure.py:40-71 | A match is the first offset with a downtrend, a higher high and a lower RSI. |
| BearishRallyFailure.FailureMirrorsDivergence | scanners/bearish_rally_failure.py:62-64 | A rally failure is never a bearish divergence at the same offset, because the two need the close on opposite sides of the 200-bar average. |
| BearishRallyFailure.CheckOffset | scanners/bearish_rally_failure.py:52-64 | The test for one offset is exactly `FailureAt`. |
| BearishRallyFailure.Scan | scanners/bearish_rally_failure.py:40-71 | The loop agrees with `Evaluate` of the old record. |
| RsiOversold.Detect | scanners/rsi_oversold.py:41-73 | A match is the first offset where RSI is below the threshold, the 200-day average rises over 5 bars and the close is above 95% of it. |
| RsiOversold.LongerLookbackKeepsSetup | scanners/rsi_oversold.py:54 | Lengthening the setup look-back keeps the setup already found. |
| RsiOversold.ReportedValues | scanners/rsi_oversold.py:68-70 | The reported RSI is finite and below the threshold; the reported average is the series value. |
| RsiOversold.Scan | scanners/rsi_oversold.py:41-73 | The loop agrees with `Evaluate` of the old record. |
| RsiOversold.DetectIs | scanners/rsi_oversold.py:54-71 | The first oversold pullback the loop finds is the reported one. |
| Canslim.High52 | scanners/canslim.py:66 | The 52-week high is the highest high of the last 252 bars. |
| Canslim.LastYearHighs | scanners/canslim.py:66 | The `tail(252).max()` of the high column is that highest high. |
| Canslim.Evaluate | scanners/canslim.py:41-78 | A company passes exactly when it is a strong leader (present EPS growth and RS percentile above their minimums), has 252 bars and closes near its high. |
| Canslim.PctOfHighAtLeast | scanners/canslim.py:68-74 | A passing company closes at no less than 100 − within-percent of its high. |
| Canslim.GateFirst | scanners/canslim.py:50-57 | A company failing the fundamental gate is rejected whatever its history. |
| Canslim.Scan | scanners/canslim.py:41-78 | The in-place version agrees with `Evaluate` of the old record. |
| LorenzRegime.StateXBounds | scanners/lorenz_regime.py:51-58 | The reconstructed state lies in [−1, 1]. |
| LorenzRegime.Regime | scanners/lorenz_regime.py:61-63 | The regime is 1 above the threshold, −1 below its negation and 0 otherwise. |
| LorenzRegime.NoFlipAtHighThreshold | scanners/lorenz_regime.py:73 | With a threshold of 1 or more, no flip to uptrend can occur. |
| LorenzRegime.NoFlipAtZeroLookback | scanners/lorenz_regime.py:50-57 | A look-back of 0 makes the state 0 on every bar, so no flip to uptrend can occur. |
| LorenzRegime.FlipMeaning | scanners/lorenz_regime.py:73 | A flip means the state now exceeds the threshold and was within ±threshold the bar before. |
| LorenzRegime.CheckFlip | scanners/lorenz_regime.py:46-76 | The test is exactly `FlipsUp`. |
| LorenzRegime.Scan | scanners/lorenz_regime.py:41-82 | The in-place version agrees with `Evaluate` of the old record. |
| BbSqueezeBreakout.BandsOf | scanners/bb_squeeze_breakout.py:49-62 | Every indicator series is aligned with the bars. |
| BbSqueezeBreakout.Width | scanners/bb_squeeze_breakout.py:51 | The band width is NaN exactly when a band is missing or the middle band and the spread are both zero. |
| BbSqueezeBreakout.Detect | scanners/bb_squeeze_breakout.py:40-73 | A match is the first offset with a squeeze the bar before, a close above the upper band and an uptrend. |
| BbSqueezeBreakout.SqueezeBoundsSpread | scanners/bb_squeeze_breakout.py:62-63 | With a positive middle band, the squeeze bounds the band spread by the quantile times the middle band. |
| BbSqueezeBreakout.CheckOffset | scanners/bb_squeeze_breakout.py:58-67 | The test for one offset is exactly `BreakoutAt`. |
| BbSqueezeBreakout.Scan | scanners/bb_squeeze_breakout.py:40-73 | The loop agrees with `Evaluate` of the old record. |
| BbExtremeReversal.AnyTouch | scanners/bb_extreme_reversal.py:55 | `.any()` over the window holds exactly when some bar's low touches the lower band. |
| BbExtremeReversal.WindowIsLookback | scanners/bb_extreme_reversal.py:55 | For a look-back that fits, the window is the `extreme_lookback` bars before today. |
| BbExtremeReversal.NoLookbackNoSetup | scanners/bb_extreme_reversal.py:55 | A look-back of 0 gives an empty window, and no setup is ever reported. |
| BbExtremeReversal.CheckReversal | scanners/bb_extreme_reversal.py:45-59 | The test is exactly `Reverses`. |
| BbExtremeReversal.Scan | scanners/bb_extreme_reversal.py:40-68 | The in-place version agrees with `Evaluate` of the old record. |
| GenericScreener.LeadingColumns | scanners/generic_screener.py:77-81 | The user's output columns lead when given; otherwise symbol, longname, marketcap. |
| GenericScreener.DbOpOf | scanners/generic_screener.py:129-138 | Exactly `>`, `>=`, `<`, `<=` and `==` become comparisons. |
| GenericScreener.Scaled | scanners/generic_screener.py:125-127 | A percentage value is divided by 100. Dividing a non-number raises. |
| GenericScreener.FilterConditions | scanners/generic_screener.py:108-141 | A filter lacking a name, operator or value, or naming an unknown or technical metric, adds nothing. Otherwise it adds a not-null condition and, for a known operator, the comparison with the possibly scaled value. |
| GenericScreener.BuildConditions | scanners/generic_screener.py:107-144 | The loop builds exactly `Conditions`. |
| GenericScreener.FailureSticks | scanners/generic_screener.py:107-141 | Once a filter raises, later filters do not change the outcome. |
| GenericScreener.KnownOnly | scanners/generic_screener.py:98 | The database filters are those naming a known metric. |
| GenericScreener.UnknownFiltersIgnored | scanners/generic_screener.py:113-118 | Removing filters with unknown names does not change the query. |
| GenericScreener.TechFilters | scanners/generic_screener.py:159 | The technical filters are exactly the filters naming a technical metric. |
| GenericScreener.Eval | scanners/generic_screener.py:182 | `eval(f"a {op} b")` compares a with b for a comparison operator and raises for anything else. |
| GenericScreener.CrossingsExclusive | scanners/generic_screener.py:204-205 | A series cannot cross another both above and below on the same bar. |
| GenericScreener.AdxRejectsEverything | scanners/generic_screener.py:171-228 | An `adx` filter falls through every branch and rejects every company. |
| GenericScreener.AverageFilterBoundaries | scanners/generic_screener.py:177-182 | An SMA filter rejects histories shorter than its period, and rejects a price equal to the average under a strict operator. |
| GenericScreener.CrossFiltersExclusive | scanners/generic_screener.py:198-214 | A MACD or STOCH `cross_above` and `cross_below` filter cannot both pass on one history. |
| GenericScreener.PassAll | scanners/generic_screener.py:161-164 | The tech check passes exactly when every filter passes. A failure names a failing filter. |
| GenericScreener.Evaluate | scanners/generic_screener.py:158-169 | A passing company is its record minus `id` and `isactive`. |
| GenericScreener.NoTechFiltersPassAll | scanners/generic_screener.py:158-169 | Without technical filters every candidate passes with its record reduced. |
| GenericScreener.ScanCompany | scanners/generic_screener.py:158-169 | The in-place version agrees with `Evaluate` of the old record, including the raising case. |
| Fundamentals.NumberIn | scanners/garp.py:60-70 | A numeric column's value is present exactly when the record holds a number there. |
| Fundamentals.OverIff | scanners/garp.py:63 | A `column > c` condition holds exactly when the record has a number above c there. |
| Fundamentals.UnderIff | scanners/garp.py:65 | A `column < c` condition holds exactly when the record has a number below c there. |
| Fundamentals.Evaluate | scanners/garp.py:43-49 | The fundamental screens succeed exactly when `id` and `isactive` are present, returning the rest of the record; otherwise KeyError. |
| Fundamentals.PassingRecordReturned | scanners/garp.py:43-49 | A queried candidate with an id is returned non-empty and keeps its exchange. |
| Fundamentals.ScanCompany | scanners/garp.py:48-49 | The in-place delete agrees with `Evaluate`. |
| Garp.CandidateIff | scanners/garp.py:60-70 | A company is selected exactly when it is active, listed on the market and meets every GARP bound. |
| Garp.GrowthIff | scanners/garp.py:68-69 | A growth condition holds exactly when growth × 100 exceeds the percentage. |
| Garp.NonPositiveLimitSelectsNothing | scanners/garp.py:64-67 | A non-positive P/E or PEG maximum selects no company. |
| UndervaluedPb.CandidateIff | scanners/undervalued_pb.py:58-70 | A company is selected exactly when it is active, listed and meets every price-to-book bound. |
| UndervaluedPb.DefaultsBoundPb | scanners/undervalued_pb.py:52-66 | With the defaults, a selected company has 0.1 < P/B < 1.5 and a market cap above 500M. |
| HighDividendYield.CandidateIff | scanners/high_dividend_yield.py:56-63 | A company is selected exactly when it is active, listed and meets every yield and payout bound. |
| HighDividendYield.RawVersusScaledYield | scanners/high_dividend_yield.py:60 | This screen compares the stored yield with the raw percentage. The generic screener divides it by 100. A yield stored as t passes the generic filter `> t` but fails this screen's bound t. |
| ScannerSdk.QueryOf | scanners/scanner_sdk.py:86-96 | Every scanner except the generic screener has a query; the generic one may raise while building it. |
| ScannerSdk.ScanCompany | scanners/scanner_sdk.py:48-62 | The base scanner's `scan_company` reports nothing. |
| ScannerSdk.Reported | scanners/scanner_sdk.py:131-133 | A fundamental result is reported as a hit and an error is passed on. |
| ScannerSdk.CallScanCompany | scanners/scanner_sdk.py:131 | The in-place call agrees with `ScanCompany` of the old record. |
| ScannerSdk.CallDetector | scanners/scanner_sdk.py:131 | The in-place call of a chart-pattern scanner gives null or the enriched record, exactly as `Detected` of the old record says. |
| ScannerSdk.CallPriceActionDetector | scanners/scanner_sdk.py:131 | The same, for the new-high, new-low, cross, climax, spring and gap scanners. |
| ScannerSdk.CallIndicatorDetector | scanners/scanner_sdk.py:131 | The same, for the RSI, rally-failure, CANSLIM, Lorenz and Bollinger-band scanners. |
| ScannerSdk.CallFundamentals | scanners/garp.py:48-49 | The in-place call for the fundamental screens agrees with `Fundamentals.Evaluate`. |
| ScannerSdk.CandidateMap | scanners/scanner_sdk.py:98-102 | The candidate map holds exactly the records the query selects. |
| ScannerSdk.Histories | scanners/scanner_sdk.py:105-109 | The price histories are exactly the non-empty histories of candidates, split-adjusted. |
| ScannerSdk.LiquidIds | scanners/scanner_sdk.py:111-123 | The companies kept are exactly those whose latest average volume reaches the floor. |
| ScannerSdk.Least | scanners/scanner_sdk.py:127 | A non-empty set of ids has a least element. |
| ScannerSdk.Ascending | scanners/scanner_sdk.py:127 | `groupby` visits the company ids in strictly ascending order, each once. |
| ScannerSdk.Collect | scanners/scanner_sdk.py:125-133 | The loop keeps no more rows than companies, and no kept row is empty. |
| ScannerSdk.Add | scanners/scanner_sdk.py:131-133 | An exception ends the loop; a non-empty record is appended; anything else leaves the rows as they were. |
| ScannerSdk.CollectNext | scanners/scanner_sdk.py:127-133 | One more company either leaves the rows alone (empty record) or adds its outcome. |
| ScannerSdk.CollectFailureSticks | scanners/scanner_sdk.py:131 | Once a company raises, the later companies do not change the outcome. |
| ScannerSdk.ScanOne | scanners/scanner_sdk.py:131 | One call of `scan_company` on a fresh record gives `ScanCompany`. |
| ScannerSdk.CollectRows | scanners/scanner_sdk.py:125-133 | The loop builds exactly `Collect`. |
| ScannerSdk.CollectOne | scanners/scanner_sdk.py:128-133 | One pass of the loop extends `Collect` by exactly one company; when that company raises, the pass already gives the outcome of the whole loop. |
| ScannerSdk.RunScan | scanners/scanner_sdk.py:80-151 | The imperative template gives exactly `Run`. |
| ScannerSdk.RunCandidates | scanners/scanner_sdk.py:98-151 | The steps after the query give exactly `ScanCandidates`. |
| ScannerSdk.CollectSound | scanners/scanner_sdk.py:130-133 | Every collected row is the hit of a company with a non-empty record. |
| ScannerSdk.CollectComplete | scanners/scanner_sdk.py:130-133 | Every hit of a company with a non-empty record is collected. |
| ScannerSdk.CollectAborts | scanners/scanner_sdk.py:131 | A company whose scan raises makes the loop raise. |
| ScannerSdk.CollectQuiet | scanners/scanner_sdk.py:132-133 | When no company matches, no row is collected. |
| ScannerSdk.NothingToScan | scanners/scanner_sdk.py:98-109 | Without a candidate that has prices, the result is the empty frame. |
| ScannerSdk.RowsComeFromScannedCompanies | scanners/scanner_sdk.py:125-151 | Every result row is the hit of a selected, priced, liquid company on its split-adjusted history. |
| ScannerSdk.ScannedHitsAreReported | scanners/scanner_sdk.py:125-151 | Every hit of such a company appears in the result. |
| ScannerSdk.ExceptionAbortsScan | scanners/scanner_sdk.py:131 | A scan that raises on any scanned company makes the whole run raise. |
| ScannerSdk.QuietScanFindsNothing | scanners/scanner_sdk.py:125-137 | A `scan_company` that never reports and never raises gives the empty frame. |
| ScannerSdk.BaseScannerFindsNothing | scanners/scanner_sdk.py:48-62 | The base scanner always produces the empty frame. |
| ScannerSdk.GarpRowsAreGarp | scanners/garp.py:43-74 | Every GARP result row is the record of an active, listed company meeting every GARP bound, without `id` and `isactive`. |
| ScannerSdk.GarpHit | scanners/garp.py:43-49 | A GARP candidate whose scan returns a record meets every GARP bound, and the record is its own without `id` and `isactive`. |
| StrongestIndustries.RsColumn | scanners/strongest_industries.py:51-57 | Periods 6 and 3 map to the 126-day and 63-day RS columns; any other period maps to the 252-day column. |
| StrongestIndustries.Selected | scanners/strongest_industries.py:62-75 | Each selected stock comes from a record that the query selects and that carries a finite RS percentile. |
| StrongestIndustries.SelectedComplete | scanners/strongest_industries.py:62-75 | Conversely, every record the query selects that carries a finite RS percentile is among the selected stocks. |
| StrongestIndustries.Members | scanners/strongest_industries.py:93 | The members of an industry are exactly the stocks of that industry. |
| StrongestIndustries.Sized | scanners/strongest_industries.py:77-80 | The stocks kept are exactly those whose industry has at least the minimum number of stocks. |
| StrongestIndustries.IndustriesOf | scanners/strongest_industries.py:87 | The industries are exactly those of the remaining stocks. |
| StrongestIndustries.RankedIndustries | scanners/strongest_industries.py:87 | The industries sorted by descending mean RS form a permutation of the industries. |
| StrongestIndustries.RankedMembers | scanners/strongest_industries.py:94 | The members sorted by descending RS form a permutation of the members. |
| StrongestIndustries.SortRanked | scanners/strongest_industries.py:119-120 | The final sort is by industry RS, then stock RS, descending, and is a permutation. |
| StrongestIndustries.RunScan | scanners/strongest_industries.py:42-121 | The imperative scan gives exactly `Report` of the selected stocks. |
| StrongestIndustries.CollectStrongest | scanners/strongest_industries.py:91-95 | The loop over the top industries gives exactly `Strongest`. |
| StrongestIndustries.TopStocksSize | scanners/strongest_industries.py:94 | An industry contributes at most K stocks. |
| StrongestIndustries.StrongestSize | scanners/strongest_industries.py:91-95 | N industries contribute at most N × K stocks. |
| StrongestIndustries.StrongestOrigin | scanners/strongest_industries.py:91-95 | Each collected stock belongs to its listed industry and carries that industry's mean RS. |
| StrongestIndustries.StrongestComplete | scanners/strongest_industries.py:91-95 | Conversely, every top-K stock of every listed industry is collected with that industry's mean RS. |
| StrongestIndustries.TaggedOrigin | scanners/strongest_industries.py:91-95 | The rows appended for one industry are stocks of that industry drawn from its top-k ranking, each carrying the industry's mean RS. |
| StrongestIndustries.RankingSize | scanners/strongest_industries.py:88-95 | The ranking holds at most N × K stocks. |
| StrongestIndustries.RankingOrigin | scanners/strongest_industries.py:77-105 | Each ranked stock belongs to a large-enough top industry and carries that industry's mean RS. |
| StrongestIndustries.RankingComplete | scanners/strongest_industries.py:87-95 | Conversely, every top-K stock of every top-N industry is ranked with its industry's mean RS. |
| StrongestIndustries.RankingOrdered | scanners/strongest_industries.py:119-120 | The ranking is ordered by industry RS, then stock RS, both descending. |
| StrongestIndustries.TopIndustriesAreStrongest | scanners/strongest_industries.py:87-88 | Every top industry has a mean RS at least that of every industry left out. |
| StrongestIndustries.TopStocksAreStrongest | scanners/strongest_industries.py:94 | Every stock kept has an RS at least that of every member left out. |
| StrongestIndustries.FullIndustriesGiveTopK | scanners/strongest_industries.py:94 | An industry with at least K members contributes exactly K stocks. |
| StrongestIndustries.NoLargeIndustryNoReport | scanners/strongest_industries.py:82-83 | With no industry of the minimum size, the result is the empty frame. |
| StrongestIndustries.ReportShape | scanners/strongest_industries.py:110-121 | A non-empty result has the leading columns in order and one row per ranked stock. |
| AllInOne.Picks | strategies/_all_in_one.py:8-14 | A category has at most one pick per symbol. |
| AllInOne.CollectPicks | strategies/_all_in_one.py:8-14 | The loop over the data gives exactly `Picks`. |
| AllInOne.NonEmpty | strategies/_all_in_one.py:67 | The results keep exactly the non-empty categories. |
| AllInOne.RunAllScanners | strategies/_all_in_one.py:3-67 | The imperative run gives exactly the non-empty categories. |
| AllInOne.PicksExactly | strategies/_all_in_one.py:8-14 | A row is picked exactly when the rule fires on some symbol's history. |
| AllInOne.PicksInOrder | strategies/_all_in_one.py:8-14 | Picks keep the order of the data. |
| AllInOne.MoonshotIff | strategies/_all_in_one.py:8-13 | Moonshot fires exactly when all four hold: at least 30 bars, a close of at most 25, a positive prior average, and a volume over 8× that average. |
| AllInOne.GapUpIff | strategies/_all_in_one.py:35-37 | With a positive previous close, the gap rule fires exactly when open > 1.08 × previous close and the bar closes above its open. |
| AllInOne.GapAfterZeroClose | strategies/_all_in_one.py:36-37 | After a zero close, the gap is infinite and fires for any positive open with a green bar. |
| AllInOne.ParabolicGain | strategies/_all_in_one.py:56-59 | A parabolic pick gained more than 120% over seven days. |
| AllInOne.RankedCategory | strategies/_all_in_one.py:16 | A ranked category holds exactly min(n, picks) of the picks, sorted by its column, and no dropped pick ranks ahead of a kept one. With n or fewer picks it holds all of them. |
| AllInOne.RankedBeforeRest | strategies/_all_in_one.py:16 | Each kept row is ordered at or before each dropped pick by the column. |
| AllInOne.FirstRedDayCategory | strategies/_all_in_one.py:51 | The first-red-day category is the first 20 picks, unsorted. |
| AllInOne.RankedEmptyIff | strategies/_all_in_one.py:16 | A ranked category is empty exactly when it has no picks. |
| AllInOne.PresentIff | strategies/_all_in_one.py:67 | A category name appears in the result exactly when its table is non-empty. |
| AllInOne.CategoryPresentIff | strategies/_all_in_one.py:67 | Each of the five categories is reported exactly when its rule picked a symbol. |

## Left out

- **Database access** (SQLAlchemy queries, `object_as_dict`):
  - the company table is a map from id to record;
  - the price table is a map from id to bar sequence;
  - queries are `Query.Condition` lists evaluated on records;
  - the exchange-by-market subquery is a set of exchange codes.
- **Wall-clock and `days_back`:** the wall clock and the `days_back` window of `_get_price_history` are not modelled. The history given is the one fetched.
- **Indicator numerics:** TA-Lib SMA, EMA, RSI, MACD, STOCH and BBANDS, the rolling quantile and the all-in-one EWM RSI are parameters. Their numeric definitions are not modelled.
- **Indicator errors:** an indicator call never fails in the model; `Talib` always returns a series aligned with the bars. In the source, TA-Lib raises on an out-of-range `timeperiod` (for example an RSI, SMA or BBANDS period below 2, such as an `rsi_period` of 1 in the divergence and rally-failure scanners). pandas raises for a negative `squeeze_period` or a `squeeze_quantile` outside [0, 1] in the squeeze breakout. Nothing in the scan loop catches these errors, so the source aborts the whole scan. The model instead scans every company with the series the parameter gives.
- **Display formatting:** `strftime` date formatting and every `round(...)` are left out. This covers the price, `vol_x`, RSI and gap in the all-in-one rules, the percentiles in strongest industries and the yield and payout in high dividend yield. Unrounded values are reported. For strongest industries this also changes the sort order; see `StrongestIndustries.SortRanked` below.
- **NaN in stored data:** NaN prices and volumes in the stored history are not modelled. A text or missing sort key sorts like NaN, last.
- **Text comparison:** database comparisons of text use code-point order; collations are not modelled.
- **Scanner discovery:** `scanner_loader.py` discovers scanner classes by importing modules. Scanners are a closed datatype here.
- **Tables.SortRows:** models a stable sort. pandas' default quicksort may order equal keys differently.
- **StrongestIndustries.RankedMembers:** stocks are ranked by a stable sort on RS. The source's single-key `sort_values(...).head(K)` uses pandas' default quicksort, which is not stable. So when RS ties at the K-th place, the source may keep different stocks than the model.
- **StrongestIndustries.RankedIndustries:** industries with equal mean RS keep the order of their last appearance among the stocks. pandas orders groups by industry name, then sorts them without a stability guarantee.
- **StrongestIndustries.Selected:** a record whose RS percentile is stored as a non-finite float is dropped rather than carried as NaN.
- **AllInOne.RsiBounce:** the RSI is the parameter `rsi`. Its EWM definition is not modelled.
- **AllInOne.RunAllScanners:** the symbol-to-history dict is a sequence of pairs. Unique symbols are not required.
- **ScannerSdk.RunScan:** `volume_lookback_days` below 1 is a `ValueError` from pandas `rolling`. The model reports it as a failure before any company is scanned.
- **LorenzRegime.Params:** the look-back is a natural number. A look-back of 0 is accepted by pandas `rolling`; every rolling extreme is then NaN, the state is 0 on every bar and nothing is reported (`LorenzRegime.NoFlipAtZeroLookback`). A negative look-back makes pandas raise `ValueError`, which aborts the whole scan; that case is not modelled.
- **Divergence look-backs:** the look-back of the three RSI divergence scanners is a natural number. A negative look-back from the UI is not modelled.
- **SellingClimax.Params:** `newLowPeriod` is a natural number. A negative period from the UI is not modelled. In Python it would widen the new-low window through slice arithmetic: −1 at offset 1 gives `iloc[0:-1]`, the whole prior history.
- **WyckoffSpring.Params:** `supportPeriod` is a natural number. A negative period from the UI is not modelled. In Python it would change the box window through the same slice arithmetic.
- **StrongestIndustries.SortRanked:** the source rounds both percentiles to two decimals before its two-key sort, and the model sorts the unrounded values. So the row order can differ. Example: industry RS 85.124 with stock RS 70 against 85.121 with stock 90. The source ties at 85.12 and puts the stock-90 row first; the model puts the 85.124 row first.
- **GenericScreener.FilterConditions:**
  - `'in'` with a non-empty list becomes a membership condition;
  - other list or mapping operands passed to a comparison raise an argument error, where the database driver would reject them;
  - database behaviour for such operands is not modelled further.
- **GenericScreener.Eval:** only comparison operators are evaluated; any other text raises. Arbitrary Python passed to `eval` is not modelled.
