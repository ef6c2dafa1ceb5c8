/** The price-range oscillators of Calculations/Oscillator.cs: Balance of
    Power, Rate of Change, the Ultimate Oscillator, the Vortex Indicator,
    Williams %R and the Stochastic Oscillator. */
module RangeOscillators {
  import opened Series
  import opened Signals
  import opened Stock

  // ===========================================================================
  // Balance of Power (Calculations/Oscillator.cs:692-731)

  /** `(close - open) / (high - low)`, 0 when the bar has no range. */
  function BopValue(close: real, open: real, high: real, low: real): real {
    if high - low != 0.0 then (close - open) / (high - low) else 0.0
  }

  function BopSeries(inp: Inputs, n: nat): (r: seq<real>)
    ensures |r| == n
  {
    Tabulate((k: nat) => BopValue(At(inp.input, k), At(inp.open, k), At(inp.high, k), At(inp.low, k)), n)
  }

  lemma BopSeriesStep(inp: Inputs, bop: seq<real>, n: nat)
    requires bop == BopSeries(inp, n)
    ensures BopSeries(inp, n + 1) == bop + [BopValue(At(inp.input, n), At(inp.open, n), At(inp.high, n), At(inp.low, n))]
  {
    TabulateStep((k: nat) => BopValue(At(inp.input, k), At(inp.open, k), At(inp.high, k), At(inp.low, k)), n);
  }

  /** On a bar whose open and close lie within [low, high] the balance lies in
      [-1, 1]; it is 0 on a bar without range, and otherwise its sign is that
      of close - open. */
  lemma BopRange(close: real, open: real, high: real, low: real)
    ensures high == low ==> BopValue(close, open, high, low) == 0.0
    ensures high > low ==> (BopValue(close, open, high, low) > 0.0 <==> close > open)
    ensures high > low ==> (BopValue(close, open, high, low) < 0.0 <==> close < open)
    ensures low <= open <= high && low <= close <= high ==> -1.0 <= BopValue(close, open, high, low) <= 1.0
  {
    if high > low {
      QuotientSign(close - open, high - low);
      if low <= open <= high && low <= close <= high {
        DivisionBounds(close - open, high - low);
      }
    }
  }

  /** Bar k of the Balance of Power series is in [-1, 1] when bar k is well formed. */
  lemma BopSeriesRange(inp: Inputs, n: nat, k: nat)
    requires k < n
    requires At(inp.low, k) <= At(inp.open, k) <= At(inp.high, k)
    requires At(inp.low, k) <= At(inp.input, k) <= At(inp.high, k)
    ensures -1.0 <= BopSeries(inp, n)[k] <= 1.0
  {
    TabulateAt((j: nat) => BopValue(At(inp.input, j), At(inp.open, j), At(inp.high, j), At(inp.low, j)), n, k);
    BopRange(At(inp.input, k), At(inp.open, k), At(inp.high, k), At(inp.low, k));
  }

  /** The signal loop runs over `ClosePrices.Count` bars, not `Count`. */
  method CalculateBalanceOfPower(stockData: StockData, inp: Inputs, ma: MovingAverage,
                                 compare: CompareClassifier, length: int)
    modifies stockData
    ensures var bop := BopSeries(inp, stockData.Count);
            var bopSignal := ma(length, bop);
            && stockData.OutputValues == map["Bop" := bop, "BopSignal" := bopSignal]
            && stockData.SignalsList == CrossSignals(compare, bop, bopSignal, |stockData.ClosePrices|)
            && stockData.CustomValuesList == bop
            && stockData.IndicatorName == Indicator.BalanceOfPower
  {
    var balanceOfPowerList: seq<real> := [];
    var signalsList: seq<Signal> := [];
    for i := 0 to stockData.Count
      invariant balanceOfPowerList == BopSeries(inp, i)
    {
      BopSeriesStep(inp, balanceOfPowerList, i);
      var currentClose := At(inp.input, i);
      var currentOpen := At(inp.open, i);
      var currentHigh := At(inp.high, i);
      var currentLow := At(inp.low, i);

      var balanceOfPower := BopValue(currentClose, currentOpen, currentHigh, currentLow);
      balanceOfPowerList := balanceOfPowerList + [balanceOfPower];
    }

    var bopSignalList := ma(length, balanceOfPowerList);
    for i := 0 to |stockData.ClosePrices|
      invariant signalsList == CrossSignals(compare, balanceOfPowerList, bopSignalList, i)
    {
      CrossSignalsStep(compare, balanceOfPowerList, bopSignalList, i);
      var bop := At(balanceOfPowerList, i);
      var bopMa := At(bopSignalList, i);
      var prevBop := At(balanceOfPowerList, i - 1);
      var prevBopMa := At(bopSignalList, i - 1);

      var signal := CrossSignal(compare, bop, prevBop, bopMa, prevBopMa);
      signalsList := signalsList + [signal];
    }

    stockData.OutputValues := map["Bop" := balanceOfPowerList, "BopSignal" := bopSignalList];
    stockData.SignalsList := signalsList;
    stockData.CustomValuesList := balanceOfPowerList;
    stockData.IndicatorName := Indicator.BalanceOfPower;
  }

  // ===========================================================================
  // Rate of Change (Calculations/Oscillator.cs:739-768)

  /** The percent change from `prevValue` to `currentValue`, 0 when `prevValue` is 0. */
  function RocValue(currentValue: real, prevValue: real): real {
    if prevValue != 0.0 then (currentValue - prevValue) / prevValue * 100.0 else 0.0
  }

  /** Bar k compares its price with that of bar k - length; before bar
      `length` that price reads as 0 (`At` of a negative index). */
  function RocSeries(inp: Inputs, length: int, n: nat): (r: seq<real>)
    ensures |r| == n
  {
    Tabulate((k: nat) => RocValue(At(inp.input, k), At(inp.input, k - length)), n)
  }

  lemma RocSeriesStep(inp: Inputs, length: int, roc: seq<real>, n: nat)
    requires roc == RocSeries(inp, length, n)
    ensures RocSeries(inp, length, n + 1) == roc + [RocValue(At(inp.input, n), At(inp.input, n - length))]
  {
    TabulateStep((k: nat) => RocValue(At(inp.input, k), At(inp.input, k - length)), n);
  }

  /** The rate of change determines the price: `current = prev * (1 + roc / 100)`
      when `prev != 0`; with a positive base price it is positive exactly
      when the price rose. */
  lemma RocInverse(currentValue: real, prevValue: real)
    ensures prevValue == 0.0 ==> RocValue(currentValue, prevValue) == 0.0
    ensures prevValue != 0.0 ==> currentValue == prevValue + prevValue * RocValue(currentValue, prevValue) / 100.0
    ensures prevValue > 0.0 ==> (RocValue(currentValue, prevValue) > 0.0 <==> currentValue > prevValue)
  {
    if prevValue != 0.0 {
      var q := (currentValue - prevValue) / prevValue;
      assert q * prevValue == currentValue - prevValue;
      if prevValue > 0.0 {
        assert q > 0.0 <==> currentValue - prevValue > 0.0;
      }
    }
  }

  /** Bar k of the series, read back with the price `length` bars earlier. */
  lemma RocSeriesAt(inp: Inputs, length: int, n: nat, k: nat)
    requires k < n
    ensures var prev := At(inp.input, k - length);
            prev != 0.0 ==> At(inp.input, k) == prev + prev * RocSeries(inp, length, n)[k] / 100.0
    ensures k < length && length > 0 ==> RocSeries(inp, length, n)[k] == 0.0
  {
    TabulateAt((j: nat) => RocValue(At(inp.input, j), At(inp.input, j - length)), n, k);
    RocInverse(At(inp.input, k), At(inp.input, k - length));
  }

  method CalculateRateOfChange(stockData: StockData, inp: Inputs, compare: CompareClassifier, length: int)
    modifies stockData
    ensures var roc := RocSeries(inp, length, stockData.Count);
            && stockData.OutputValues == map["Roc" := roc]
            && stockData.SignalsList == MomentumSignals(compare, roc, stockData.Count)
            && stockData.CustomValuesList == roc
            && stockData.IndicatorName == Indicator.RateOfChange
  {
    var rocList: seq<real> := [];
    var signalsList: seq<Signal> := [];
    for i := 0 to stockData.Count
      invariant rocList == RocSeries(inp, length, i)
      invariant signalsList == MomentumSignals(compare, rocList, i)
    {
      RocSeriesStep(inp, length, rocList, i);
      var currentValue := At(inp.input, i);
      var prevValue := if i >= length then At(inp.input, i - length) else 0.0;
      var prevRoc1 := At(rocList, i - 1);
      var prevRoc2 := At(rocList, i - 2);

      var roc := RocValue(currentValue, prevValue);
      assert roc == RocValue(At(inp.input, i), At(inp.input, i - length));
      MomentumSignalsAppend(compare, rocList, roc, i);
      rocList := rocList + [roc];

      var signal := MomentumSignal(compare, roc, prevRoc1, prevRoc2);
      signalsList := signalsList + [signal];
    }

    stockData.OutputValues := map["Roc" := rocList];
    stockData.SignalsList := signalsList;
    stockData.CustomValuesList := rocList;
    stockData.IndicatorName := Indicator.RateOfChange;
  }

  // ===========================================================================
  // Ultimate Oscillator (Calculations/Oscillator.cs:1206-1257)

  /** Buying pressure: the close above the lower of low and previous close. */
  function BuyingPressure(close: real, low: real, prevClose: real): real {
    close - Min(low, prevClose)
  }

  /** The range from the lower of low and previous close to the higher of
      high and previous close. */
  function UoTrueRange(high: real, low: real, prevClose: real): real {
    Max(high, prevClose) - Min(low, prevClose)
  }

  function BpSeries(inp: Inputs, n: nat): (r: seq<real>)
    ensures |r| == n
  {
    Tabulate((k: nat) => BuyingPressure(At(inp.input, k), At(inp.low, k), At(inp.input, k - 1)), n)
  }

  function UoTrSeries(inp: Inputs, n: nat): (r: seq<real>)
    ensures |r| == n
  {
    Tabulate((k: nat) => UoTrueRange(At(inp.high, k), At(inp.low, k), At(inp.input, k - 1)), n)
  }

  /** The weighted average of the three pressure ratios, clamped to [0, 100]. */
  function UoValue(avg7: real, avg14: real, avg28: real): real {
    MinOrMax(100.0 * (((4.0 * avg7) + (2.0 * avg14) + avg28) / (4.0 + 2.0 + 1.0)), 100.0, 0.0)
  }

  /** Bar k's oscillator from the trailing sums over the lists after bar k. */
  function UoAt(inp: Inputs, length1: int, length2: int, length3: int, k: nat): real {
    var bp, tr := BpSeries(inp, k + 1), UoTrSeries(inp, k + 1);
    UoValue(Ratio(Sum(TakeLast(bp, length1)), Sum(TakeLast(tr, length1))),
            Ratio(Sum(TakeLast(bp, length2)), Sum(TakeLast(tr, length2))),
            Ratio(Sum(TakeLast(bp, length3)), Sum(TakeLast(tr, length3))))
  }

  function UoSeries(inp: Inputs, length1: int, length2: int, length3: int, n: nat): (r: seq<real>)
    ensures |r| == n
  {
    Tabulate((k: nat) => UoAt(inp, length1, length2, length3, k), n)
  }

  lemma BpSeriesStep(inp: Inputs, bp: seq<real>, n: nat)
    requires bp == BpSeries(inp, n)
    ensures BpSeries(inp, n + 1) == bp + [BuyingPressure(At(inp.input, n), At(inp.low, n), At(inp.input, n - 1))]
  {
    TabulateStep((k: nat) => BuyingPressure(At(inp.input, k), At(inp.low, k), At(inp.input, k - 1)), n);
  }

  lemma UoTrSeriesStep(inp: Inputs, tr: seq<real>, n: nat)
    requires tr == UoTrSeries(inp, n)
    ensures UoTrSeries(inp, n + 1) == tr + [UoTrueRange(At(inp.high, n), At(inp.low, n), At(inp.input, n - 1))]
  {
    TabulateStep((k: nat) => UoTrueRange(At(inp.high, k), At(inp.low, k), At(inp.input, k - 1)), n);
  }

  lemma UoSeriesStep(inp: Inputs, length1: int, length2: int, length3: int, uo: seq<real>, n: nat)
    requires uo == UoSeries(inp, length1, length2, length3, n)
    ensures UoSeries(inp, length1, length2, length3, n + 1) == uo + [UoAt(inp, length1, length2, length3, n)]
  {
    TabulateStep((k: nat) => UoAt(inp, length1, length2, length3, k), n);
  }

  /** The range is never negative, and on a bar whose close lies in
      [low, high] the buying pressure lies in [0, range]. */
  lemma PressureWithinRange(close: real, high: real, low: real, prevClose: real)
    ensures UoTrueRange(high, low, prevClose) >= 0.0
    ensures low <= close <= high ==> 0.0 <= BuyingPressure(close, low, prevClose) <= UoTrueRange(high, low, prevClose)
  {
  }

  /** Bar j's buying pressure lies in [0, range] when the bar closes within its range. */
  lemma PressureAtWithinRange(inp: Inputs, m: nat, j: nat)
    requires j < m && At(inp.low, j) <= At(inp.input, j) <= At(inp.high, j)
    ensures 0.0 <= BpSeries(inp, m)[j] <= UoTrSeries(inp, m)[j]
  {
    PressuresAt(inp, m, j);
    PressureWithinRange(At(inp.input, j), At(inp.high, j), At(inp.low, j), At(inp.input, j - 1));
  }

  /** Bar j of the pressure and range series is that bar's pressure and range. */
  lemma PressuresAt(inp: Inputs, m: nat, j: nat)
    requires j < m
    ensures BpSeries(inp, m)[j] == BuyingPressure(At(inp.input, j), At(inp.low, j), At(inp.input, j - 1))
    ensures UoTrSeries(inp, m)[j] == UoTrueRange(At(inp.high, j), At(inp.low, j), At(inp.input, j - 1))
  {
    TabulateAt((i: nat) => BuyingPressure(At(inp.input, i), At(inp.low, i), At(inp.input, i - 1)), m, j);
    TabulateAt((i: nat) => UoTrueRange(At(inp.high, i), At(inp.low, i), At(inp.input, i - 1)), m, j);
  }

  /** Bar by bar, the buying pressure lies in [0, range] while bars close within their range. */
  lemma PressureSeriesWithinRange(inp: Inputs, m: nat)
    requires forall j :: 0 <= j < m ==> At(inp.low, j) <= At(inp.input, j) <= At(inp.high, j)
    ensures forall j :: 0 <= j < m ==> 0.0 <= BpSeries(inp, m)[j] <= UoTrSeries(inp, m)[j]
  {
    forall j | 0 <= j < m
      ensures 0.0 <= BpSeries(inp, m)[j] <= UoTrSeries(inp, m)[j]
    {
      PressureAtWithinRange(inp, m, j);
    }
  }

  /** With the three ratios in [0, 1] the weighted average already lies in
      [0, 100], so the clamp leaves it unchanged. */
  lemma UoValueUnclamped(avg7: real, avg14: real, avg28: real)
    requires 0.0 <= avg7 <= 1.0 && 0.0 <= avg14 <= 1.0 && 0.0 <= avg28 <= 1.0
    ensures UoValue(avg7, avg14, avg28) == 100.0 * ((4.0 * avg7 + 2.0 * avg14 + avg28) / 7.0)
  {
  }

  /** When every bar up to k closes within its range, bar k of the oscillator
      is the plain weighted average of the three window ratios. */
  lemma UoSeriesUnclamped(inp: Inputs, length1: int, length2: int, length3: int, n: nat, k: nat)
    requires k < n
    requires forall j :: 0 <= j <= k ==> At(inp.low, j) <= At(inp.input, j) <= At(inp.high, j)
    ensures var bp, tr := BpSeries(inp, k + 1), UoTrSeries(inp, k + 1);
            var avg7 := Ratio(Sum(TakeLast(bp, length1)), Sum(TakeLast(tr, length1)));
            var avg14 := Ratio(Sum(TakeLast(bp, length2)), Sum(TakeLast(tr, length2)));
            var avg28 := Ratio(Sum(TakeLast(bp, length3)), Sum(TakeLast(tr, length3)));
            && 0.0 <= avg7 <= 1.0 && 0.0 <= avg14 <= 1.0 && 0.0 <= avg28 <= 1.0
            && UoSeries(inp, length1, length2, length3, n)[k] == 100.0 * ((4.0 * avg7 + 2.0 * avg14 + avg28) / 7.0)
  {
    var bp, tr := BpSeries(inp, k + 1), UoTrSeries(inp, k + 1);
    PressureSeriesWithinRange(inp, k + 1);
    WindowRatioInUnitInterval(bp, tr, length1);
    WindowRatioInUnitInterval(bp, tr, length2);
    WindowRatioInUnitInterval(bp, tr, length3);
    TabulateAt((j: nat) => UoAt(inp, length1, length2, length3, j), n, k);
  }

  method CalculateUltimateOscillator(stockData: StockData, inp: Inputs, rsi: RsiClassifier,
                                     length1: int, length2: int, length3: int)
    modifies stockData
    ensures var uo := UoSeries(inp, length1, length2, length3, stockData.Count);
            && stockData.OutputValues == map["Uo" := uo]
            && stockData.SignalsList == RsiSignals(rsi, uo, 70.0, 30.0, stockData.Count)
            && stockData.CustomValuesList == uo
            && stockData.IndicatorName == Indicator.UltimateOscillator
  {
    var uoList: seq<real> := [];
    var bpList: seq<real> := [];
    var trList: seq<real> := [];
    var signalsList: seq<Signal> := [];
    for i := 0 to stockData.Count
      invariant bpList == BpSeries(inp, i)
      invariant trList == UoTrSeries(inp, i)
      invariant uoList == UoSeries(inp, length1, length2, length3, i)
      invariant signalsList == RsiSignals(rsi, uoList, 70.0, 30.0, i)
    {
      var currentHigh := At(inp.high, i);
      var currentLow := At(inp.low, i);
      var currentClose := At(inp.input, i);
      var prevClose := At(inp.input, i - 1);
      var prevUo1 := At(uoList, i - 1);
      var prevUo2 := At(uoList, i - 2);

      var buyingPressure := BuyingPressure(currentClose, currentLow, prevClose);
      BpSeriesStep(inp, bpList, i);
      bpList := bpList + [buyingPressure];

      var trueRange := UoTrueRange(currentHigh, currentLow, prevClose);
      UoTrSeriesStep(inp, trList, i);
      trList := trList + [trueRange];

      var bp7Sum := Sum(TakeLast(bpList, length1));
      var bp14Sum := Sum(TakeLast(bpList, length2));
      var bp28Sum := Sum(TakeLast(bpList, length3));
      var tr7Sum := Sum(TakeLast(trList, length1));
      var tr14Sum := Sum(TakeLast(trList, length2));
      var tr28Sum := Sum(TakeLast(trList, length3));
      var avg7 := Ratio(bp7Sum, tr7Sum);
      var avg14 := Ratio(bp14Sum, tr14Sum);
      var avg28 := Ratio(bp28Sum, tr28Sum);

      var ultimateOscillator := UoValue(avg7, avg14, avg28);
      assert ultimateOscillator == UoAt(inp, length1, length2, length3, i);
      UoSeriesStep(inp, length1, length2, length3, uoList, i);
      RsiSignalsAppend(rsi, uoList, ultimateOscillator, 70.0, 30.0, i);
      uoList := uoList + [ultimateOscillator];

      var signal := RsiSignal(rsi, ultimateOscillator, prevUo1, prevUo2, 70.0, 30.0);
      signalsList := signalsList + [signal];
    }

    stockData.OutputValues := map["Uo" := uoList];
    stockData.SignalsList := signalsList;
    stockData.CustomValuesList := uoList;
    stockData.IndicatorName := Indicator.UltimateOscillator;
  }

  // ===========================================================================
  // Vortex Indicator (Calculations/Oscillator.cs:1265-1318)

  /** `CalculateTrueRange(high, low, prevClose)`, not part of this model. */
  type TrueRange = (real, real, real) -> real

  /** Upward vortex movement: `|high - prevLow|`. */
  function VmPlus(high: real, prevLow: real): real { Abs(high - prevLow) }

  /** Downward vortex movement: `|low - prevHigh|`. */
  function VmMinus(low: real, prevHigh: real): real { Abs(low - prevHigh) }

  function VmPlusSeries(inp: Inputs, n: nat): (r: seq<real>)
    ensures |r| == n
  {
    Tabulate((k: nat) => VmPlus(At(inp.high, k), At(inp.low, k - 1)), n)
  }

  function VmMinusSeries(inp: Inputs, n: nat): (r: seq<real>)
    ensures |r| == n
  {
    Tabulate((k: nat) => VmMinus(At(inp.low, k), At(inp.high, k - 1)), n)
  }

  function VortexTrSeries(inp: Inputs, trueRange: TrueRange, n: nat): (r: seq<real>)
    ensures |r| == n
  {
    Tabulate((k: nat) => trueRange(At(inp.high, k), At(inp.low, k), At(inp.input, k - 1)), n)
  }

  /** Bar k's VI+: the window's upward movement over its true range. */
  function ViPlusAt(inp: Inputs, trueRange: TrueRange, length: int, k: nat): real {
    Ratio(Sum(TakeLast(VmPlusSeries(inp, k + 1), length)), Sum(TakeLast(VortexTrSeries(inp, trueRange, k + 1), length)))
  }

  /** Bar k's VI-: the window's downward movement over its true range. */
  function ViMinusAt(inp: Inputs, trueRange: TrueRange, length: int, k: nat): real {
    Ratio(Sum(TakeLast(VmMinusSeries(inp, k + 1), length)), Sum(TakeLast(VortexTrSeries(inp, trueRange, k + 1), length)))
  }

  function ViPlusSeries(inp: Inputs, trueRange: TrueRange, length: int, n: nat): (r: seq<real>)
    ensures |r| == n
  {
    Tabulate((k: nat) => ViPlusAt(inp, trueRange, length, k), n)
  }

  function ViMinusSeries(inp: Inputs, trueRange: TrueRange, length: int, n: nat): (r: seq<real>)
    ensures |r| == n
  {
    Tabulate((k: nat) => ViMinusAt(inp, trueRange, length, k), n)
  }

  lemma VmPlusSeriesStep(inp: Inputs, vm: seq<real>, n: nat)
    requires vm == VmPlusSeries(inp, n)
    ensures VmPlusSeries(inp, n + 1) == vm + [VmPlus(At(inp.high, n), At(inp.low, n - 1))]
  {
    TabulateStep((k: nat) => VmPlus(At(inp.high, k), At(inp.low, k - 1)), n);
  }

  lemma VmMinusSeriesStep(inp: Inputs, vm: seq<real>, n: nat)
    requires vm == VmMinusSeries(inp, n)
    ensures VmMinusSeries(inp, n + 1) == vm + [VmMinus(At(inp.low, n), At(inp.high, n - 1))]
  {
    TabulateStep((k: nat) => VmMinus(At(inp.low, k), At(inp.high, k - 1)), n);
  }

  lemma VortexTrSeriesStep(inp: Inputs, trueRange: TrueRange, tr: seq<real>, n: nat)
    requires tr == VortexTrSeries(inp, trueRange, n)
    ensures VortexTrSeries(inp, trueRange, n + 1) == tr + [trueRange(At(inp.high, n), At(inp.low, n), At(inp.input, n - 1))]
  {
    TabulateStep((k: nat) => trueRange(At(inp.high, k), At(inp.low, k), At(inp.input, k - 1)), n);
  }

  lemma ViSeriesStep(inp: Inputs, trueRange: TrueRange, length: int, viPlus: seq<real>, viMinus: seq<real>, n: nat)
    requires viPlus == ViPlusSeries(inp, trueRange, length, n)
    requires viMinus == ViMinusSeries(inp, trueRange, length, n)
    ensures ViPlusSeries(inp, trueRange, length, n + 1) == viPlus + [ViPlusAt(inp, trueRange, length, n)]
    ensures ViMinusSeries(inp, trueRange, length, n + 1) == viMinus + [ViMinusAt(inp, trueRange, length, n)]
  {
    TabulateStep((k: nat) => ViPlusAt(inp, trueRange, length, k), n);
    TabulateStep((k: nat) => ViMinusAt(inp, trueRange, length, k), n);
  }

  /** VI+ and VI- share their denominator: with a positive true-range total
      both are non-negative and VI+ exceeds VI- exactly when the upward
      movement total exceeds the downward one; with a zero total both are 0. */
  lemma VortexOrder(plusTotal: real, minusTotal: real, trTotal: real)
    requires plusTotal >= 0.0 && minusTotal >= 0.0
    ensures trTotal == 0.0 ==> Ratio(plusTotal, trTotal) == 0.0 && Ratio(minusTotal, trTotal) == 0.0
    ensures trTotal > 0.0 ==> Ratio(plusTotal, trTotal) >= 0.0 && Ratio(minusTotal, trTotal) >= 0.0
    ensures trTotal > 0.0 ==> (Ratio(plusTotal, trTotal) > Ratio(minusTotal, trTotal) <==> plusTotal > minusTotal)
  {
    if trTotal > 0.0 {
      QuotientSign(plusTotal, trTotal);
      QuotientSign(minusTotal, trTotal);
      QuotientSign(plusTotal - minusTotal, trTotal);
      assert plusTotal / trTotal - minusTotal / trTotal == (plusTotal - minusTotal) / trTotal;
    }
  }

  /** Both movement series are never negative. */
  lemma MovementsNonNegative(inp: Inputs, m: nat)
    ensures forall j :: 0 <= j < m ==> VmPlusSeries(inp, m)[j] >= 0.0 && VmMinusSeries(inp, m)[j] >= 0.0
  {
    forall j | 0 <= j < m
      ensures VmPlusSeries(inp, m)[j] >= 0.0 && VmMinusSeries(inp, m)[j] >= 0.0
    {
      MovementsAt(inp, m, j);
    }
  }

  /** Bar j of each movement series is that bar's movement. */
  lemma MovementsAt(inp: Inputs, m: nat, j: nat)
    requires j < m
    ensures VmPlusSeries(inp, m)[j] == VmPlus(At(inp.high, j), At(inp.low, j - 1))
    ensures VmMinusSeries(inp, m)[j] == VmMinus(At(inp.low, j), At(inp.high, j - 1))
  {
    TabulateAt((i: nat) => VmPlus(At(inp.high, i), At(inp.low, i - 1)), m, j);
    TabulateAt((i: nat) => VmMinus(At(inp.low, i), At(inp.high, i - 1)), m, j);
  }

  /** Any window of either movement series has a non-negative total. */
  lemma MovementTotalsNonNegative(inp: Inputs, lo: int, m: nat)
    requires 0 <= lo <= m
    ensures SumRange(VmPlusSeries(inp, m), lo, m) >= 0.0 && SumRange(VmMinusSeries(inp, m), lo, m) >= 0.0
  {
    MovementsNonNegative(inp, m);
    SumRangeNonNegative(VmPlusSeries(inp, m), lo, m);
    SumRangeNonNegative(VmMinusSeries(inp, m), lo, m);
  }

  /** Bar k's VI+ and VI- are the movement sums of bars
      max(0, k - length + 1) .. k over their true-range sum. */
  lemma VortexSeriesAt(inp: Inputs, trueRange: TrueRange, length: int, n: nat, k: nat)
    requires k < n && length >= 1
    ensures var lo := WindowStart(k, length);
            var tr := SumRange(VortexTrSeries(inp, trueRange, k + 1), lo, k + 1);
            && ViPlusSeries(inp, trueRange, length, n)[k] == Ratio(SumRange(VmPlusSeries(inp, k + 1), lo, k + 1), tr)
            && ViMinusSeries(inp, trueRange, length, n)[k] == Ratio(SumRange(VmMinusSeries(inp, k + 1), lo, k + 1), tr)
  {
    TabulateAt((j: nat) => ViPlusAt(inp, trueRange, length, j), n, k);
    TabulateAt((j: nat) => ViMinusAt(inp, trueRange, length, j), n, k);
    TakeLastSumIsWindowSum(VmPlusSeries(inp, k + 1), k, length);
    TakeLastSumIsWindowSum(VmMinusSeries(inp, k + 1), k, length);
    TakeLastSumIsWindowSum(VortexTrSeries(inp, trueRange, k + 1), k, length);
  }

  /** With a positive true-range sum over bar k's window, VI+ > VI- exactly
      when the window's upward movement exceeds its downward movement. */
  lemma VortexSeriesOrder(inp: Inputs, trueRange: TrueRange, length: int, n: nat, k: nat)
    requires k < n && length >= 1
    requires SumRange(VortexTrSeries(inp, trueRange, k + 1), WindowStart(k, length), k + 1) > 0.0
    ensures var lo := WindowStart(k, length);
            var viPlus, viMinus := ViPlusSeries(inp, trueRange, length, n)[k], ViMinusSeries(inp, trueRange, length, n)[k];
            && viPlus >= 0.0 && viMinus >= 0.0
            && (viPlus > viMinus <==> SumRange(VmPlusSeries(inp, k + 1), lo, k + 1) > SumRange(VmMinusSeries(inp, k + 1), lo, k + 1))
  {
    var lo := WindowStart(k, length);
    VortexSeriesAt(inp, trueRange, length, n, k);
    MovementTotalsNonNegative(inp, lo, k + 1);
    VortexOrderOf(ViPlusSeries(inp, trueRange, length, n)[k], ViMinusSeries(inp, trueRange, length, n)[k],
                  SumRange(VmPlusSeries(inp, k + 1), lo, k + 1), SumRange(VmMinusSeries(inp, k + 1), lo, k + 1),
                  SumRange(VortexTrSeries(inp, trueRange, k + 1), lo, k + 1));
  }

  /** `VortexOrder` for two values already known to be the two ratios. */
  lemma VortexOrderOf(viPlus: real, viMinus: real, plusTotal: real, minusTotal: real, trTotal: real)
    requires plusTotal >= 0.0 && minusTotal >= 0.0 && trTotal > 0.0
    requires viPlus == Ratio(plusTotal, trTotal) && viMinus == Ratio(minusTotal, trTotal)
    ensures viPlus >= 0.0 && viMinus >= 0.0 && (viPlus > viMinus <==> plusTotal > minusTotal)
  {
    VortexOrder(plusTotal, minusTotal, trTotal);
  }

  method CalculateVortexIndicator(stockData: StockData, inp: Inputs, trueRange: TrueRange,
                                  compare: CompareClassifier, length: int)
    modifies stockData
    ensures var viPlus := ViPlusSeries(inp, trueRange, length, stockData.Count);
            var viMinus := ViMinusSeries(inp, trueRange, length, stockData.Count);
            && stockData.OutputValues == map["ViPlus" := viPlus, "ViMinus" := viMinus]
            && stockData.SignalsList == CrossSignals(compare, viPlus, viMinus, stockData.Count)
            && stockData.CustomValuesList == []
            && stockData.IndicatorName == Indicator.VortexIndicator
  {
    var vmPlusList: seq<real> := [];
    var trueRangeList: seq<real> := [];
    var vmMinusList: seq<real> := [];
    var viPlus14List: seq<real> := [];
    var viMinus14List: seq<real> := [];
    var signalsList: seq<Signal> := [];
    for i := 0 to stockData.Count
      invariant vmPlusList == VmPlusSeries(inp, i)
      invariant vmMinusList == VmMinusSeries(inp, i)
      invariant trueRangeList == VortexTrSeries(inp, trueRange, i)
      invariant viPlus14List == ViPlusSeries(inp, trueRange, length, i)
      invariant viMinus14List == ViMinusSeries(inp, trueRange, length, i)
      invariant signalsList == CrossSignals(compare, viPlus14List, viMinus14List, i)
    {
      var currentHigh := At(inp.high, i);
      var currentLow := At(inp.low, i);
      var prevClose := At(inp.input, i - 1);
      var prevLow := At(inp.low, i - 1);
      var prevHigh := At(inp.high, i - 1);

      var vmPlus := VmPlus(currentHigh, prevLow);
      VmPlusSeriesStep(inp, vmPlusList, i);
      vmPlusList := vmPlusList + [vmPlus];

      var vmMinus := VmMinus(currentLow, prevHigh);
      VmMinusSeriesStep(inp, vmMinusList, i);
      vmMinusList := vmMinusList + [vmMinus];

      var trueRangeValue := trueRange(currentHigh, currentLow, prevClose);
      VortexTrSeriesStep(inp, trueRange, trueRangeList, i);
      trueRangeList := trueRangeList + [trueRangeValue];

      var vmPlus14 := Sum(TakeLast(vmPlusList, length));
      var vmMinus14 := Sum(TakeLast(vmMinusList, length));
      var trueRange14 := Sum(TakeLast(trueRangeList, length));

      ViSeriesStep(inp, trueRange, length, viPlus14List, viMinus14List, i);
      var prevViPlus14 := Last(viPlus14List);
      var viPlus14 := Ratio(vmPlus14, trueRange14);
      assert viPlus14 == ViPlusAt(inp, trueRange, length, i);

      var prevViMinus14 := Last(viMinus14List);
      var viMinus14 := Ratio(vmMinus14, trueRange14);
      assert viMinus14 == ViMinusAt(inp, trueRange, length, i);
      CrossSignalsAppend(compare, viPlus14List, viMinus14List, viPlus14, viMinus14, i);
      viPlus14List := viPlus14List + [viPlus14];
      viMinus14List := viMinus14List + [viMinus14];

      var signal := CrossSignal(compare, viPlus14, prevViPlus14, viMinus14, prevViMinus14);
      signalsList := signalsList + [signal];
    }

    stockData.OutputValues := map["ViPlus" := viPlus14List, "ViMinus" := viMinus14List];
    stockData.SignalsList := signalsList;
    stockData.CustomValuesList := [];
    stockData.IndicatorName := Indicator.VortexIndicator;
  }

  // ===========================================================================
  // Williams %R (Calculations/Oscillator.cs:1435-1466)

  /** `-100 * (highest - close) / (highest - lowest)`, -100 when the window has no range. */
  function WilliamsRValue(highestHigh: real, lowestLow: real, close: real): real {
    if highestHigh - lowestLow != 0.0 then -100.0 * (highestHigh - close) / (highestHigh - lowestLow) else -100.0
  }

  function WilliamsRSeries(inp: Inputs, highest: seq<real>, lowest: seq<real>, n: nat): (r: seq<real>)
    ensures |r| == n
  {
    Tabulate((k: nat) => WilliamsRValue(At(highest, k), At(lowest, k), At(inp.input, k)), n)
  }

  lemma WilliamsRSeriesStep(inp: Inputs, highest: seq<real>, lowest: seq<real>, wr: seq<real>, n: nat)
    requires wr == WilliamsRSeries(inp, highest, lowest, n)
    ensures WilliamsRSeries(inp, highest, lowest, n + 1)
         == wr + [WilliamsRValue(At(highest, n), At(lowest, n), At(inp.input, n))]
  {
    TabulateStep((k: nat) => WilliamsRValue(At(highest, k), At(lowest, k), At(inp.input, k)), n);
  }

  /** With the close inside [lowest, highest], %R lies in [-100, 0]: 0 at the
      highest high and -100 at the lowest low. A window without range gives -100. */
  lemma WilliamsRRange(highestHigh: real, lowestLow: real, close: real)
    ensures highestHigh == lowestLow ==> WilliamsRValue(highestHigh, lowestLow, close) == -100.0
    ensures lowestLow <= close <= highestHigh ==> -100.0 <= WilliamsRValue(highestHigh, lowestLow, close) <= 0.0
    ensures lowestLow < highestHigh && close == highestHigh ==> WilliamsRValue(highestHigh, lowestLow, close) == 0.0
    ensures lowestLow < highestHigh && close == lowestLow ==> WilliamsRValue(highestHigh, lowestLow, close) == -100.0
  {
    if lowestLow < highestHigh {
      var range := highestHigh - lowestLow;
      var q := (highestHigh - close) / range;
      assert -100.0 * (highestHigh - close) / range == -100.0 * q;
      if lowestLow <= close <= highestHigh {
        UnitQuotient(highestHigh - close, range);
      }
      if close == lowestLow {
        assert (highestHigh - close) / range == 1.0;
      }
    }
  }

  /** When `highest` and `lowest` are the window extremes of high and low
      (the helper's contract, as assumed here) and bar k closes within its
      range, bar k's %R lies in [-100, 0]. */
  lemma WilliamsRSeriesRange(inp: Inputs, highest: seq<real>, lowest: seq<real>, length: int, n: nat, k: nat)
    requires k < n && length >= 1
    requires k < |inp.high| && k < |inp.low| && k < |highest| && k < |lowest|
    requires highest[k] == SeqMax(Window(inp.high, k, length))
    requires lowest[k] == SeqMin(Window(inp.low, k, length))
    requires inp.low[k] <= At(inp.input, k) <= inp.high[k]
    ensures -100.0 <= WilliamsRSeries(inp, highest, lowest, n)[k] <= 0.0
  {
    TabulateAt((j: nat) => WilliamsRValue(At(highest, j), At(lowest, j), At(inp.input, j)), n, k);
    WindowBoundsBar(inp.high, k, length);
    WindowBoundsBar(inp.low, k, length);
    WilliamsRRange(highest[k], lowest[k], At(inp.input, k));
  }

  method CalculateWilliamsR(stockData: StockData, inp: Inputs, maxMin: MaxAndMinOfTwo,
                            rsi: RsiClassifier, length: int)
    modifies stockData
    ensures var extremes := maxMin(inp.high, inp.low, length);
            var wr := WilliamsRSeries(inp, extremes.0, extremes.1, stockData.Count);
            && stockData.OutputValues == map["Williams%R" := wr]
            && stockData.SignalsList == RsiSignals(rsi, wr, -20.0, -80.0, stockData.Count)
            && stockData.CustomValuesList == wr
            && stockData.IndicatorName == Indicator.WilliamsR
  {
    var williamsRList: seq<real> := [];
    var signalsList: seq<Signal> := [];
    var extremes := maxMin(inp.high, inp.low, length);
    var highestList, lowestList := extremes.0, extremes.1;
    for i := 0 to stockData.Count
      invariant williamsRList == WilliamsRSeries(inp, highestList, lowestList, i)
      invariant signalsList == RsiSignals(rsi, williamsRList, -20.0, -80.0, i)
    {
      var currentClose := At(inp.input, i);
      var highestHigh := At(highestList, i);
      var lowestLow := At(lowestList, i);
      var prevWilliamsR1 := At(williamsRList, i - 1);
      var prevWilliamsR2 := At(williamsRList, i - 2);

      var williamsR := WilliamsRValue(highestHigh, lowestLow, currentClose);
      WilliamsRSeriesStep(inp, highestList, lowestList, williamsRList, i);
      RsiSignalsAppend(rsi, williamsRList, williamsR, -20.0, -80.0, i);
      williamsRList := williamsRList + [williamsR];

      var signal := RsiSignal(rsi, williamsR, prevWilliamsR1, prevWilliamsR2, -20.0, -80.0);
      signalsList := signalsList + [signal];
    }

    stockData.OutputValues := map["Williams%R" := williamsRList];
    stockData.SignalsList := signalsList;
    stockData.CustomValuesList := williamsRList;
    stockData.IndicatorName := Indicator.WilliamsR;
  }

  // ===========================================================================
  // Stochastic Oscillator (Calculations/Oscillator.cs:1543-1584)

  /** `MinOrMax((close - lowest) / (highest - lowest) * 100, 100, 0)`, 0 when
      the window has no range. */
  function FastKValue(highestHigh: real, lowestLow: real, close: real): real {
    if highestHigh - lowestLow != 0.0 then MinOrMax((close - lowestLow) / (highestHigh - lowestLow) * 100.0, 100.0, 0.0)
    else 0.0
  }

  function FastKSeries(inp: Inputs, highest: seq<real>, lowest: seq<real>, n: nat): (r: seq<real>)
    ensures |r| == n
  {
    Tabulate((k: nat) => FastKValue(At(highest, k), At(lowest, k), At(inp.input, k)), n)
  }

  lemma FastKSeriesStep(inp: Inputs, highest: seq<real>, lowest: seq<real>, fastK: seq<real>, n: nat)
    requires fastK == FastKSeries(inp, highest, lowest, n)
    ensures FastKSeries(inp, highest, lowest, n + 1)
         == fastK + [FastKValue(At(highest, n), At(lowest, n), At(inp.input, n))]
  {
    TabulateStep((k: nat) => FastKValue(At(highest, k), At(lowest, k), At(inp.input, k)), n);
  }

  /** %K always lies in [0, 100]; with the close inside a window that has a
      range the clamp does nothing, so %K is exactly the close's position in
      the window: 100 at the highest high and 0 at the lowest low. */
  lemma FastKExact(highestHigh: real, lowestLow: real, close: real)
    ensures 0.0 <= FastKValue(highestHigh, lowestLow, close) <= 100.0
    ensures lowestLow < highestHigh && lowestLow <= close <= highestHigh
            ==> FastKValue(highestHigh, lowestLow, close) == (close - lowestLow) / (highestHigh - lowestLow) * 100.0
    ensures lowestLow < highestHigh && close == highestHigh ==> FastKValue(highestHigh, lowestLow, close) == 100.0
    ensures lowestLow < highestHigh && close == lowestLow ==> FastKValue(highestHigh, lowestLow, close) == 0.0
  {
    if lowestLow < highestHigh && lowestLow <= close <= highestHigh {
      var range := highestHigh - lowestLow;
      UnitQuotient(close - lowestLow, range);
      if close == highestHigh {
        QuotientUnique(1.0, close - lowestLow, range);
      }
      if close == lowestLow {
        QuotientUnique(0.0, close - lowestLow, range);
      }
    }
  }

  /** Under the window-extremes contract of the helper and a bar that closes
      within its range, bar k's %K is the unclamped position of the close. */
  lemma FastKSeriesExact(inp: Inputs, highest: seq<real>, lowest: seq<real>, length: int, n: nat, k: nat)
    requires k < n && length >= 1
    requires k < |inp.high| && k < |inp.low| && k < |highest| && k < |lowest|
    requires highest[k] == SeqMax(Window(inp.high, k, length))
    requires lowest[k] == SeqMin(Window(inp.low, k, length))
    requires inp.low[k] <= At(inp.input, k) <= inp.high[k]
    requires lowest[k] < highest[k]
    ensures FastKSeries(inp, highest, lowest, n)[k] == (At(inp.input, k) - lowest[k]) / (highest[k] - lowest[k]) * 100.0
  {
    FastKSeriesAt(inp, highest, lowest, n, k);
    assert inp.high[k] <= highest[k] by { WindowBoundsBar(inp.high, k, length); }
    assert lowest[k] <= inp.low[k] by { WindowBoundsBar(inp.low, k, length); }
    FastKExact(highest[k], lowest[k], At(inp.input, k));
  }

  /** Bar k of the %K series is that bar's %K. */
  lemma FastKSeriesAt(inp: Inputs, highest: seq<real>, lowest: seq<real>, n: nat, k: nat)
    requires k < n
    ensures FastKSeries(inp, highest, lowest, n)[k] == FastKValue(At(highest, k), At(lowest, k), At(inp.input, k))
  {
    TabulateAt((j: nat) => FastKValue(At(highest, j), At(lowest, j), At(inp.input, j)), n, k);
  }

  /** The signal compares slow %K (`FastD`) with slow %D (`SlowD`). */
  method CalculateStochasticOscillator(stockData: StockData, inp: Inputs, maxMin: MaxAndMinOfTwo, ma: MovingAverage,
                                       rsi: RsiClassifier, length: int, signalLength: int)
    modifies stockData
    ensures var extremes := maxMin(inp.high, inp.low, length);
            var fastK := FastKSeries(inp, extremes.0, extremes.1, stockData.Count);
            var fastD := ma(signalLength, fastK);
            var slowD := ma(signalLength, fastD);
            && stockData.OutputValues == map["FastK" := fastK, "FastD" := fastD, "SlowD" := slowD]
            && stockData.SignalsList == RsiCrossSignals(rsi, fastD, slowD, 80.0, 20.0, stockData.Count)
            && stockData.CustomValuesList == fastK
            && stockData.IndicatorName == Indicator.StochasticOscillator
  {
    var fastKList: seq<real> := [];
    var signalsList: seq<Signal> := [];
    var extremes := maxMin(inp.high, inp.low, length);
    var highestList, lowestList := extremes.0, extremes.1;
    for i := 0 to stockData.Count
      invariant fastKList == FastKSeries(inp, highestList, lowestList, i)
    {
      FastKSeriesStep(inp, highestList, lowestList, fastKList, i);
      var currentValue := At(inp.input, i);
      var highestHigh := At(highestList, i);
      var lowestLow := At(lowestList, i);

      var fastK := FastKValue(highestHigh, lowestLow, currentValue);
      fastKList := fastKList + [fastK];
    }

    var fastDList := ma(signalLength, fastKList);
    var slowDList := ma(signalLength, fastDList);
    for i := 0 to stockData.Count
      invariant signalsList == RsiCrossSignals(rsi, fastDList, slowDList, 80.0, 20.0, i)
    {
      RsiCrossSignalsStep(rsi, fastDList, slowDList, 80.0, 20.0, i);
      var slowK := At(fastDList, i);
      var slowD := At(slowDList, i);
      var prevSlowk := At(fastDList, i - 1);
      var prevSlowd := At(slowDList, i - 1);

      var signal := RsiCrossSignal(rsi, slowK, prevSlowk, slowD, prevSlowd, 80.0, 20.0);
      signalsList := signalsList + [signal];
    }

    stockData.OutputValues := map["FastK" := fastKList, "FastD" := fastDList, "SlowD" := slowDList];
    stockData.SignalsList := signalsList;
    stockData.CustomValuesList := fastKList;
    stockData.IndicatorName := Indicator.StochasticOscillator;
  }
}
