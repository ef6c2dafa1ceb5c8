# Oscillator indicators of OoplesFinance.StockIndicators, modelled in Dafny

This project models a part of `Calculations/Oscillator.cs`: the per-bar loops of its `Calculate*` extension methods, for the
indicators listed below. Each method walks the bars of a `StockData` context once. It appends one value per bar to
`List<decimal>` accumulators and reads earlier values back through two defaulting idioms:

- `ElementAtOrDefault(i)` and the guard `i >= k ? list[i - k] : 0` become `Series.At`, which is 0 outside the list.
- `LastOrDefault()` becomes `Series.Last`, which is 0 on the empty list.

Each method then overwrites the context's four output fields.

What the model captures:

- **Numbers and lists.** `decimal` is `real`, and every list is a `seq<real>`.
- **Rolling windows.** `TakeLast(n).Sum()` and `.Average()` are `Series.TakeLast`, `Series.Sum` and `Series.Average`. The
  lemmas `TakeLastSumIsWindowSum` and `TrailingAverage` tie them to the trailing window `list[max(0, i-n+1) .. i]`, which
  is partial at the start of the series.
- **The context.** `StockData` is a class (module `Stock`) with the bar count and the fields `OutputValues`,
  `SignalsList`, `CustomValuesList` and `IndicatorName`. Every `Calculate*` is a `method` that changes only those fields.
- **Why each loop is right.** Each loop is proved against a recursive function "the list after n bars", built with the
  combinators `Series.Tabulate`, `Series.Scan` and `Series.Iterate`.
- **What each indicator means.** The lemmas state it: value ranges, sign rules, running sums, window totals, and the
  state machines' invariants.
- **Helpers outside the file become parameters.** This covers `GetMovingAverageList`, `GetMaxAndMinValuesList`,
  `CalculateTrueRange`, `CalculatePercentChange`, `CalculateEMA`, the integer `MinOrMax` overload and the
  `Get*Signal` classifiers. Their results enter only through these parameters.
- **Exceptions become outcomes.** A `DivideByZeroException`, an `InvalidOperationException` from `Average()` of nothing,
  and a `KeyNotFoundException` become `Outcome.Fail(...)`. The model states when each is raised. When one is raised, the
  context is left unchanged, except by the Gator Oscillator, which raises after the Alligator has written its outputs.

Modules:

| module | file | indicators |
|---|---|---|
| `Series` | series.dfy | defaulting reads, `TakeLast` windows, sums, averages, series combinators |
| `Signals` | signals.dfy | the signal lists built from the classifiers |
| `Stock` | stock_data.dfy | `StockData`, input series, helper types, failures |
| `VolumeIndicators` | volume_indicators.dfy | Money Flow Index, Klinger, OBV, NVI, PVI, Accumulation/Distribution Line |
| `RangeOscillators` | range_oscillators.dfy | Balance of Power, Rate of Change, Ultimate Oscillator, Vortex, Williams %R, Stochastic |
| `TrendIndicators` | trend_indicators.dfy | Ichimoku, Alligator, Gator, SuperTrend, Aroon |
| `StrengthIndicators` | strength_indicators.dfy | Zweig breadth, Absolute Strength MTF, Anchored Momentum, Accumulative Swing Index, Absolute Strength Index |
| `JmaRsx` | jma_rsx.dfy | the JMA RSX clone |

Where the source is wrong, the model keeps the code as written and adds a corrected variant beside it (see
"## Findings").

## Model

| member | source | states |
|---|---|---|
| Series.MinOrMax | Calculations/Oscillator.cs:1241 | the clamp assumed for `MinOrMax(value, max, min)`: the result lies in `[min, max]`, equals `value` inside that range and a bound outside it |
| Series.TakeLastSumIsWindowSum | Calculations/Oscillator.cs:430-431 | right after bar i is appended, `TakeLast(length)` is the trailing window from `max(0, i-length+1)` to i; with `length >= 1` that window is non-empty and its sum is the sum over those indices |
| Series.TrailingAverage | Calculations/Oscillator.cs:1931 | `TakeLast(length).Average()` after bar i is defined for `length >= 1` and equals the window sum divided by `min(length, i+1)` |
| Series.RollingSumIncremental | Calculations/Oscillator.cs:1292-1294 | appending x changes the trailing-window sum by `+x` and, once the list is full, by minus the element that leaves the window; it documents the rolling-window idiom of the Vortex sums, and no other proof uses it |
| Series.LastIndexOf | Calculations/Oscillator.cs:1803-1805 | `List.LastIndexOf`: -1 or an index holding the value, with no later index holding it |
| VolumeIndicators.MoneyFlowSplit | Calculations/Oscillator.cs:424-428 | bar k's positive flow is `price*volume` exactly when the typical price rose, the negative flow when it fell; at least one of them is 0 |
| VolumeIndicators.MfiValueRange | Calculations/Oscillator.cs:432-434 | MFI is 100 exactly when the negative window total is 0, even if the positive total is 0; otherwise it is 0 when the positive total is 0; otherwise it lies in [0, 50], so it never falls in (50, 100). This is the code as written: the clamp `MinOrMax(pos / neg, 1, 0)` at `:432` caps the ratio at 1, so the overbought level 80 of `:437` is met only at exactly 100 |
| VolumeIndicators.MfiWindowTotals | Calculations/Oscillator.cs:430-434 | bar k's MFI is computed from the flow sums over the trailing window `max(0, k-length+1) .. k` |
| VolumeIndicators.MfiSeriesRange | Calculations/Oscillator.cs:432-435 | every MFI value is 100 or lies in [0, 50] |
| VolumeIndicators.CalculateMoneyFlowIndex | Calculations/Oscillator.cs:407-450 | writes the MFI list under "Mfi" and as the custom values, with its RSI signals at 80/20 |
| VolumeIndicators.KlingerTemp | Calculations/Oscillator.cs:494 | `temp` is -1 exactly when `cm == 0`, and non-negative otherwise |
| VolumeIndicators.KlingerTrendValues | Calculations/Oscillator.cs:482-484 | the trend is always -1, 0 or 1 |
| VolumeIndicators.KlingerTrendSticks | Calculations/Oscillator.cs:482-484 | once the trend is non-zero it never returns to 0 |
| VolumeIndicators.KlingerCmAccumulates | Calculations/Oscillator.cs:490-492 | while the trend is unchanged after bar j, `cm` at bar k is `cm[j]` plus the dm values of bars j+1 .. k |
| VolumeIndicators.KlingerCmRestarts | Calculations/Oscillator.cs:490-492 | on a bar where the trend changes, `cm` restarts as the previous bar's `dm` plus this bar's `dm` (high minus low) |
| VolumeIndicators.CalculateKlingerVolumeOscillator | Calculations/Oscillator.cs:461-535 | writes "Kvo" (fast minus slow average of vf), "KvoSignal" and "KvoHistogram", with signals on the histogram |
| VolumeIndicators.ObvChange | Calculations/Oscillator.cs:552-558 | OBV changes by +volume, -volume or 0 as the close is above, below or equal to the previous close (0 before bar 0) |
| VolumeIndicators.CalculateOnBalanceVolume | Calculations/Oscillator.cs:544-583 | writes "Obv" and "ObvSignal" with crossing signals of OBV against its average |
| VolumeIndicators.VolumeIndexIsZero | Calculations/Oscillator.cs:598-609 | every NVI and PVI value is 0, whatever the percent change is, because the index starts from the empty-list default 0 and each step is `prev` or `prev + prev*pctChg` |
| VolumeIndicators.CalculateNegativeVolumeIndex | Calculations/Oscillator.cs:592-633 | writes "Nvi" and "NviSignal"; NVI holds unless the volume fell |
| VolumeIndicators.CalculatePositiveVolumeIndex | Calculations/Oscillator.cs:642-683 | writes "Pvi" and "PviSignal"; PVI holds unless the volume rose |
| VolumeIndicators.VolumeIndexCompounds | Calculations/Oscillator.cs:606-607 | corrected, with a base value: bar k of NVI or PVI is the base times the product of `1 + pctChg` over the moving bars 0 .. k |
| VolumeIndicators.VolumeIndexStaysPositive | Calculations/Oscillator.cs:606-607 | corrected: a positive base keeps bar k of the index positive when the percent change of each of bars 0 .. k is above -1 |
| VolumeIndicators.CalculateVolumeIndexCorrected | Calculations/Oscillator.cs:592-683 | corrected NVI or PVI from a base value, with the same holding rule, outputs, signals, custom values and name as the methods as written |
| VolumeIndicators.MoneyFlowMultiplier | Calculations/Oscillator.cs:948-949 | the multiplier is 0 when high == low; for a close within a non-empty range it lies in [-1, 1], and it is 1 at the high and -1 at the low |
| VolumeIndicators.AdlIsRunningSum | Calculations/Oscillator.cs:950-954 | ADL at bar k is the sum of `multiplier*volume` over bars 0 .. k |
| VolumeIndicators.CalculateAccumulationDistributionLine | Calculations/Oscillator.cs:936-979 | writes "Adl" and "AdlSignal" with crossing signals |
| RangeOscillators.BopRange | Calculations/Oscillator.cs:705 | BOP is 0 for a flat bar; otherwise its sign is the sign of close minus open, and for open and close within the range it lies in [-1, 1] |
| RangeOscillators.BopSeriesRange | Calculations/Oscillator.cs:698-707 | a bar whose open and close lie within its range has a BOP in [-1, 1] |
| RangeOscillators.CalculateBalanceOfPower | Calculations/Oscillator.cs:692-731 | writes "Bop" and "BopSignal" with crossing signals |
| RangeOscillators.RocInverse | Calculations/Oscillator.cs:752 | ROC is 0 when the reference price is 0; otherwise `price == ref + ref*roc/100`, and for a positive reference ROC > 0 exactly when the price rose |
| RangeOscillators.RocSeriesAt | Calculations/Oscillator.cs:745-753 | bar k can be recovered from its ROC and the price `length` bars earlier; during the first `length` bars ROC is 0 |
| RangeOscillators.CalculateRateOfChange | Calculations/Oscillator.cs:739-768 | writes "Roc" with momentum signals |
| RangeOscillators.PressureWithinRange | Calculations/Oscillator.cs:1220-1228 | the true range is non-negative; a close within its bar's range has buying pressure in [0, true range] |
| RangeOscillators.PressureSeriesWithinRange | Calculations/Oscillator.cs:1214-1229 | when every bar closes within its range, `0 <= bp[j] <= tr[j]` on every bar |
| RangeOscillators.UoValueUnclamped | Calculations/Oscillator.cs:1241 | with the three window ratios in [0, 1], the clamp is inactive and UO is their 4:2:1 weighted average times 100 |
| RangeOscillators.UoSeriesUnclamped | Calculations/Oscillator.cs:1231-1241 | when every bar closes within its range, each window ratio is in [0, 1] and bar k's UO is that weighted average |
| RangeOscillators.CalculateUltimateOscillator | Calculations/Oscillator.cs:1206-1257 | writes "Uo" with RSI signals at 70/30 |
| RangeOscillators.VortexOrder | Calculations/Oscillator.cs:1297-1301 | with a zero true-range sum both VI are 0; with a positive one both are non-negative and VI+ > VI- exactly when the upward movement sum is larger |
| RangeOscillators.MovementsNonNegative | Calculations/Oscillator.cs:1283-1287 | the vortex movements are non-negative |
| RangeOscillators.VortexSeriesAt | Calculations/Oscillator.cs:1292-1302 | bar k's VI+ and VI- divide the movement window sums by the true-range window sum |
| RangeOscillators.VortexSeriesOrder | Calculations/Oscillator.cs:1292-1304 | with a positive true-range window sum, VI+ > VI- on bar k exactly when the window's upward movement exceeds its downward movement |
| RangeOscillators.CalculateVortexIndicator | Calculations/Oscillator.cs:1265-1318 | writes "ViPlus" and "ViMinus" with crossing signals |
| RangeOscillators.WilliamsRRange | Calculations/Oscillator.cs:1450 | %R is -100 for a flat window; a close within the window lies in [-100, 0], at 0 at the high and -100 at the low |
| RangeOscillators.WilliamsRSeriesRange | Calculations/Oscillator.cs:1442-1451 | when the highest/lowest inputs are the window extremes and the close is within the bar, %R is in [-100, 0] |
| RangeOscillators.CalculateWilliamsR | Calculations/Oscillator.cs:1435-1466 | writes "Williams%R" with RSI signals at -20/-80 |
| RangeOscillators.FastKExact | Calculations/Oscillator.cs:1556 | %K lies in [0, 100]; for a close within a non-flat window the clamp is inactive; it is 100 at the high and 0 at the low |
| RangeOscillators.FastKSeriesExact | Calculations/Oscillator.cs:1550-1557 | with the window extremes as inputs, bar k's %K is `(close - lowest) / (highest - lowest) * 100` |
| RangeOscillators.CalculateStochasticOscillator | Calculations/Oscillator.cs:1543-1584 | writes "FastK", "FastD" and "SlowD" with RSI signals at 80/20 |
| TrendIndicators.IchimokuLineInRange | Calculations/Oscillator.cs:1045-1057 | with window extremes as inputs, the line lies between the lowest low and the highest high and is equidistant from both |
| TrendIndicators.SenkouSpanABetween | Calculations/Oscillator.cs:1060 | Senkou Span A lies between the Tenkan-sen and the Kijun-sen |
| TrendIndicators.CalculateIchimokuCloud | Calculations/Oscillator.cs:1030-1082 | writes the four lines with crossing signals of Tenkan-sen against Kijun-sen |
| TrendIndicators.DisplacedIsShift | Calculations/Oscillator.cs:1112-1122 | a displaced line is `offset` zeros followed by the average shifted right by `offset` |
| TrendIndicators.CalculateAlligatorIndex | Calculations/Oscillator.cs:1097-1140 | writes "Lips", "Teeth" and "Jaws" with band signals |
| TrendIndicators.GatorBars | Calculations/Oscillator.cs:1174-1180 | the top is >= 0 and is 0 exactly when jaw == teeth; the bottom is <= 0 and is 0 exactly when teeth == lips; with lips <= teeth <= jaw, top - bottom is jaw - lips |
| TrendIndicators.GatorJawKeyMissing | Calculations/Oscillator.cs:1164 | the Alligator outputs hold "Jaws" and no "Jaw" |
| TrendIndicators.GatorLines | Calculations/Oscillator.cs:1168-1193 | writes "Top" and "Bottom" with crossing signals |
| TrendIndicators.GatorOscillatorWithJawKey | Calculations/Oscillator.cs:1162-1193 | a missing jaw key raises a key-not-found failure after the Alligator outputs have been written; a present key gives the Gator outputs |
| TrendIndicators.CalculateGatorOscillator | Calculations/Oscillator.cs:1155-1196 | as written, every call fails with a missing key "Jaw" and leaves the Alligator's whole state behind: its three lines, its band signals, empty custom values and its name (`:1129-1137`) |
| TrendIndicators.CalculateGatorOscillatorCorrected | Calculations/Oscillator.cs:1155-1196 | with the key "Jaws", the call passes and writes the Gator lines of the displaced averages |
| TrendIndicators.SuperTrendDirStaysZero | Calculations/Oscillator.cs:1356-1362 | as written, the direction is 0 on every bar and the trend equals the short stop |
| TrendIndicators.SuperTrendLongStopRatchets | Calculations/Oscillator.cs:1348-1349 | while the previous close is above the previous long stop, the long stop never falls |
| TrendIndicators.SuperTrendShortStopNeverFalls | Calculations/Oscillator.cs:1352-1353 | as written, while the previous close is below the previous short stop, the short stop never falls |
| TrendIndicators.SuperTrendShortStopExample | Calculations/Oscillator.cs:1352-1353 | closes 10, 9 with ATR 1 and multiplier 3 give short stops 13, 13 as written and 13, 12 corrected |
| TrendIndicators.SuperTrendCorrectedShortStopTrails | Calculations/Oscillator.cs:1352-1353 | with `Math.Min`, while the previous close is below the previous short stop, the short stop never rises |
| TrendIndicators.SuperTrendCorrectedDirIsSide | Calculations/Oscillator.cs:1356-1361 | starting long, the direction is always 1 or -1 and the trend is the long stop when long and the short stop when short |
| TrendIndicators.SuperTrendWith | Calculations/Oscillator.cs:1339-1366 | the loop builds the trend line of the chosen variant, with signals of the price crossing it |
| TrendIndicators.CalculateSuperTrend | Calculations/Oscillator.cs:1328-1377 | writes "Trend", which as written equals the short stop on every bar, with crossing signals |
| TrendIndicators.CalculateSuperTrendCorrected | Calculations/Oscillator.cs:1328-1377 | writes "Trend", which follows the stop of the current side, the direction always being 1 or -1 |
| TrendIndicators.DaysSinceWithinWindow | Calculations/Oscillator.cs:1802-1807 | when the extreme occurs in bar i's window, `LastIndexOf` finds it in the window, so days-since lies in [0, length-1] |
| TrendIndicators.AroonLineRange | Calculations/Oscillator.cs:1808-1809 | for days-since in [0, length-1], Aroon up/down lies in (0, 100] and is 100 exactly on the extreme's own bar |
| TrendIndicators.AroonSeriesRange | Calculations/Oscillator.cs:1797-1813 | with window extremes as inputs, the oscillator lies in (-100, 100); it is >= 0 on a bar at the high and <= 0 on a bar at the low |
| TrendIndicators.AroonLines | Calculations/Oscillator.cs:1797-1817 | the loop builds the oscillator series and its trend signals |
| TrendIndicators.CalculateAroonOscillator | Calculations/Oscillator.cs:1789-1828 | fails with division by zero exactly when `length == 0` and there is a bar; otherwise writes "Aroon" |
| StrengthIndicators.BreadthFlags | Calculations/Oscillator.cs:2691-2695 | the advance flag is 1 exactly on a rise, the decline flag exactly on a fall, and at most one is set |
| StrengthIndicators.AdvanceShareRange | Calculations/Oscillator.cs:2697-2700 | the advance share lies in [0, 1] and is taken over the trailing window sums |
| StrengthIndicators.CalculateZweigMarketBreadthIndicator | Calculations/Oscillator.cs:2677-2724 | writes the averaged share under "Zmbti" with RSI signals at 0.615/0.4 |
| StrengthIndicators.BullsBearsSplit | Calculations/Oscillator.cs:2253-2257 | `bulls0 = max(d, 0)` and `bears0 = max(-d, 0)`, their difference is d, and one of them is 0 |
| StrengthIndicators.MtfSplitAt | Calculations/Oscillator.cs:2253-2257 | the same split holds on every bar for `d = price1 - price2` |
| StrengthIndicators.MtfChannelAt | Calculations/Oscillator.cs:2259-2263 | bulls1 and bears1 split the highest-to-lowest channel at the smoothed price: both are non-negative exactly when that price lies in the channel, and bulls1 is the larger exactly when it lies above the channel's midpoint |
| StrengthIndicators.MtfHighRiseAt | Calculations/Oscillator.cs:2265 | bulls2 is the rise of the high, or 0 |
| StrengthIndicators.MtfLowFallAt | Calculations/Oscillator.cs:2268 | bears2 is the fall of the low, or 0 |
| StrengthIndicators.MtfLines | Calculations/Oscillator.cs:2242-2270 | the loop builds the six bulls/bears lists bar by bar |
| StrengthIndicators.MtfSignalLines | Calculations/Oscillator.cs:2284-2293 | the signal loop gives the crossing signals of the smoothed bulls against the bears |
| StrengthIndicators.CalculateAbsoluteStrengthMTFIndicator | Calculations/Oscillator.cs:2220-2305 | writes the smoothed "Bulls" and "Bears" with their crossing signals |
| StrengthIndicators.AnchorIsWindowAverage | Calculations/Oscillator.cs:1929-1931 | the anchor is the average price over the trailing `p`-bar window |
| StrengthIndicators.AmomsIsWindowAverage | Calculations/Oscillator.cs:1936-1937 | the signal is the average momentum over the trailing `signalLength` window |
| StrengthIndicators.AnchoredValueSign | Calculations/Oscillator.cs:1933 | momentum is 0 for a zero anchor; for a positive anchor it is positive exactly when the EMA is above it, and 0 exactly when they are equal |
| StrengthIndicators.AmomSign | Calculations/Oscillator.cs:1931-1933 | on every bar with a positive anchor, momentum is positive exactly when the EMA exceeds the anchor |
| StrengthIndicators.AnchoredBar | Calculations/Oscillator.cs:1926-1941 | one bar of the loop keeps the prices, momentum, signal and classifier lists equal to their series |
| StrengthIndicators.AnchoredLines | Calculations/Oscillator.cs:1924-1942 | the loop builds the momentum and signal series and their crossing signals |
| StrengthIndicators.CalculateAnchoredMomentum | Calculations/Oscillator.cs:1911-1954 | fails on an empty `Average()` exactly when there is a bar and a window length is below 1; otherwise writes "Amom" and "Signal" |
| StrengthIndicators.SwingValueSign | Calculations/Oscillator.cs:1989-1990 | the swing index is 0 when r or t is 0; with positive r, k and t it has the sign of its numerator |
| StrengthIndicators.AccumulatedSwingIsSum | Calculations/Oscillator.cs:1992-1994 | the last ASI value is the sum of all swing indices |
| StrengthIndicators.AccumulatedSwingAt | Calculations/Oscillator.cs:1992-1994 | ASI at bar k is the sum of the swing indices of bars 0 .. k |
| StrengthIndicators.CalculateAccumulativeSwingIndex | Calculations/Oscillator.cs:1963-2016 | writes "Asi" and its average "Signal", with trend signals on ASI |
| StrengthIndicators.StrengthBar | Calculations/Oscillator.cs:1857-1885 | a bar raises division by zero, and only that, exactly when it is flat with `length == 0`, or the `abssi` division is by 0, or `alp == 1` |
| StrengthIndicators.StrengthRunAfter | Calculations/Oscillator.cs:1852-1889 | after n bars the loop has either stopped with division by zero or holds seven lists of length n |
| StrengthIndicators.StrengthStopsPersist | Calculations/Oscillator.cs:1852-1889 | once a bar has raised, no later bar changes the outcome |
| StrengthIndicators.StrengthAlphaRange | Calculations/Oscillator.cs:1850 | `alp == 1` exactly when `signalLength == 1`; for `signalLength >= 1`, alp lies in (0, 1] |
| StrengthIndicators.StrengthFailsWithUnitAlpha | Calculations/Oscillator.cs:1882 | with `alp == 1` any non-empty run ends in division by zero |
| StrengthIndicators.StrengthFailsOnFlatBar | Calculations/Oscillator.cs:1862 | with `length == 0` the first unchanged bar ends the run in division by zero |
| StrengthIndicators.StrengthRatioRange | Calculations/Oscillator.cs:1869 | for non-negative totals `abssi` is defined, lies in [0, 1], and equals `(A+M)/(A+D+2M)` when D+M is non-zero |
| StrengthIndicators.StrengthTotalsGrow | Calculations/Oscillator.cs:1857-1866 | for positive prices the rise and fall totals never decrease |
| StrengthIndicators.StrengthNeverStops | Calculations/Oscillator.cs:1852-1889 | with positive prices, `length > 0` and `alp != 1`, no bar raises and the totals stay non-negative |
| StrengthIndicators.StrengthLines | Calculations/Oscillator.cs:1852-1889 | the loop reports a raise exactly when the run stops; otherwise it returns the d list and its trend signals |
| StrengthIndicators.CalculateAbsoluteStrengthIndex | Calculations/Oscillator.cs:1838-1900 | fails when `signalLength + 1 == 0` or a bar raises, leaving the context unchanged; otherwise writes "Asi" |
| JmaRsx.JmaOutput | Calculations/Oscillator.cs:2573-2576 | RSX lies in [0, 100]; it is 50 unless the warm-up gate is open and v20 > 0, in which case it is the clamped `(v14/v20 + 1) * 50` |
| JmaRsx.JmaCountersAsWritten | Calculations/Oscillator.cs:2567-2570 | as written, the last f88 stays 0 and f90_ is 1 from the first bar on |
| JmaRsx.JmaGateClosedAsWritten | Calculations/Oscillator.cs:2569-2574 | with those counters, f90_ is 1 and f88 >= 5, so the test `f88 < f90` fails |
| JmaRsx.JmaRsxIsFifty | Calculations/Oscillator.cs:2567-2577 | as written, RSX is 50 on every bar, whatever the prices |
| JmaRsx.JmaRsxSeriesIsFifty | Calculations/Oscillator.cs:2500-2577 | every element of the RSX list as written is 50 |
| JmaRsx.JmaRisingPricesGiveFifty | Calculations/Oscillator.cs:2500-2577 | closes 1, 2, 3 give RSX 50, 50, 50 |
| JmaRsx.JmaCountersRecorded | Calculations/Oscillator.cs:2567-2572 | with f88 recorded, f90_ counts 1 .. 6 and then stays 6, and f88 is the warm-up period |
| JmaRsx.JmaGateRecorded | Calculations/Oscillator.cs:2569-2575 | with f88 recorded, the gate is open exactly from bar 5 on |
| JmaRsx.JmaRsxRecorded | Calculations/Oscillator.cs:2575-2576 | with f88 recorded, from bar 5 on and with v20 > 0, RSX is the clamped `(v14/v20 + 1) * 50` |
| JmaRsx.JmaRsxBar | Calculations/Oscillator.cs:2502-2577 | one bar of the loop advances all fifteen filters and yields that bar's RSX |
| JmaRsx.JmaRsxLines | Calculations/Oscillator.cs:2500-2581 | the loop builds the RSX series and its RSI signals at 70/30 |
| JmaRsx.JmaRsxCloneWith | Calculations/Oscillator.cs:2476-2592 | fails with division by zero exactly when `length + 2 == 0`; otherwise writes "Rsx" |
| JmaRsx.CalculateJmaRsxClone | Calculations/Oscillator.cs:2476-2592 | as written, on success "Rsx" is the only output, and every one of its values, which are also the custom values, is 50 |
| JmaRsx.CalculateJmaRsxCloneCorrected | Calculations/Oscillator.cs:2476-2592 | with f88 recorded, writes the RSX series whose gate opens at bar 5 |

## Left out

- Floating point and rounding are abstracted by exact `real` arithmetic. This covers C# `decimal` precision, its overflow, and the rounding inside `AddRounded` (`Calculations/Oscillator.cs:1176`, `:1180`).
- The helpers called by the file but not defined in it are parameters. They are `GetMovingAverageList`, `GetMaxAndMinValuesList`, `CalculateTrueRange`, `CalculatePercentChange`, `CalculateEMA`, `CalculateAverageTrueRange` (its list is given) and the `Get*Signal` classifiers. No property of theirs is assumed, except where a lemma's precondition says, for example, that the highest list holds the window maxima.
- `GetInputValuesList` is not part of this model: the five input series are given as `Stock.Inputs`.
- Series.MinOrMax: `MinOrMax(value, max, min)` is assumed to clamp to `[min, max]`, since its body is not in the file. The integer `MinOrMax(value)` of Anchored Momentum is a parameter with no assumed bounds.
- `int` parameters are unbounded, so no overflow of `2 * momentumLength + 1` or `length + 2` is modelled.
- `CalculateEMA` in the Absolute Strength Index is a total function parameter (`Stock.EmaStep`). Whether it can itself divide by zero is not part of this model.
- In the JMA RSX clone, the fifteen `f*List`s keep only their last element (`JmaRsx.JmaFilters`), because the loop reads nothing else from them. The in-place list growth is therefore not modelled for them.
- StrengthIndicators.CalculateAbsoluteStrengthMTFIndicator: the averages `avgBulls*`, `avgBears*` and the smoothed bulls1/bears1/bulls2/bears2 lists (`Calculations/Oscillator.cs:2272-2283`) are computed and discarded, as in the source; the contract constrains only `smthBulls0` and `smthBears0`, which reach the outputs.
- The remaining `Calculate*` methods of the file are not part of this model. They include CCI, Choppiness (`Log10`), Ulcer (`Pow`/`Sqrt`), PPO, PVO, CMF, TRIX, TSI, PMO, Schaff, Average Money Flow (`Log`), JRC Fractal Dimension (`Log`), Z-Distance and Zero Lag Smoothed Cycle. Some use floating-point library calls, and the others hand input to foreign calculations through `CustomValuesList`.
- `Enums/IndicatorName.cs` contributes only the names the modelled methods record (`Stock.Indicator`). Its `Category` attributes are metadata.
- The MathNet and LinqOptimizer imports (`Calculations/Oscillator.cs:1-3`) are not modelled.
- Stock.StockData.constructor: how a `StockData` is built is not part of the file. The constructor only gives the model an initial context.
- The signal taxonomy is not specified: a signal is whatever the classifier parameter returns.

## Findings

| source | as written | input that shows it | evidently intended | confidence | as-written member | corrected member |
|---|---|---|---|---|---|---|
| Calculations/Oscillator.cs:1164 | the Gator reads `alligatorList["Jaw"]`, but the Alligator writes only "Lips", "Teeth" and "Jaws" (`:1131-1133`) | any call, including one with no bars: the lookup throws `KeyNotFoundException` | read the key "Jaws" | not executed | TrendIndicators.CalculateGatorOscillator | TrendIndicators.CalculateGatorOscillatorCorrected |
| Calculations/Oscillator.cs:1356-1357 | `dir` starts from the empty-list default 0 and only ever flips from -1 or 1, so it stays 0 and the trend line is always the short stop | any prices: every `dir` is 0 | start the direction at 1 (long), so it alternates between 1 and -1 | not executed | TrendIndicators.SuperTrendDirStaysZero | TrendIndicators.SuperTrendCorrectedDirIsSide |
| Calculations/Oscillator.cs:1353 | the short stop uses `Math.Max(tempShortStop, prevShortStop)`, so it can never trail down while price stays below it | closes 10, 9 with ATR 1 and multiplier 3: short stops 13, 13 | `Math.Min`, giving 13, 12 | not executed | TrendIndicators.SuperTrendShortStopExample | TrendIndicators.SuperTrendCorrectedShortStopTrails |
| Calculations/Oscillator.cs:2567-2572 | `f88List` is never appended to, so `prevF88` is always 0, `f90_` is 1 on every bar and the gate `f88 < f90` never opens | closes 1, 2, 3: RSX 50, 50, 50 | append `f88` each bar, so the counter runs to the warm-up period and RSX follows the filters from bar 5 | not executed | JmaRsx.JmaRisingPricesGiveFifty | JmaRsx.JmaRsxRecorded |
| Calculations/Oscillator.cs:606-607 | NVI, and PVI at `:656-657`, start from `LastOrDefault()` of the empty list, 0, and every step multiplies the previous value, so both indices are 0 on every bar | any prices and volumes: every NVI and PVI value is 0 | start from a positive base (1000 in the usual definition), so the index compounds the percent changes of its moving bars | not executed | VolumeIndicators.VolumeIndexIsZero | VolumeIndicators.VolumeIndexStaysPositive |
