/** The volume-based oscillators of Calculations/Oscillator.cs: Money Flow
    Index, Klinger Volume Oscillator, On Balance Volume, Negative and Positive
    Volume Index and Accumulation/Distribution Line. Each method walks the
    bars once, appending to local lists, and is proved against a function
    that gives those lists after n bars; the lemmas say what the lists mean. */
module VolumeIndicators {
  import opened Series
  import opened Signals
  import opened Stock

  // ===========================================================================
  // Money Flow Index (Calculations/Oscillator.cs:407-450)

  /** Bar i's raw money flow (typical price times volume) when the typical
      price rose, else 0. */
  function UpFlow(price: real, prevPrice: real, volume: real): real {
    if price > prevPrice then price * volume else 0.0
  }

  /** Bar i's raw money flow when the typical price fell, else 0. */
  function DownFlow(price: real, prevPrice: real, volume: real): real {
    if price < prevPrice then price * volume else 0.0
  }

  function PositiveFlowSeries(inp: Inputs, n: nat): (r: seq<real>)
    ensures |r| == n
  {
    Tabulate((k: nat) => UpFlow(At(inp.input, k), At(inp.input, k - 1), At(inp.volume, k)), n)
  }

  function NegativeFlowSeries(inp: Inputs, n: nat): (r: seq<real>)
    ensures |r| == n
  {
    Tabulate((k: nat) => DownFlow(At(inp.input, k), At(inp.input, k - 1), At(inp.volume, k)), n)
  }

  /** The index from the two window totals, with the source's guards and clamps. */
  function MfiValue(posTotal: real, negTotal: real): real {
    var ratio := if negTotal != 0.0 then MinOrMax(posTotal / negTotal, 1.0, 0.0) else 0.0;
    if negTotal == 0.0 then 100.0
    else if posTotal == 0.0 then 0.0
    else MinOrMax(100.0 - 100.0 / (1.0 + ratio), 100.0, 0.0)
  }

  /** Bar k's index, from the positive and negative flows of the trailing
      `length` bars (`TakeLast` over the lists as they stand after bar k). */
  function MfiAt(inp: Inputs, length: int, k: nat): real {
    MfiValue(Sum(TakeLast(PositiveFlowSeries(inp, k + 1), length)),
             Sum(TakeLast(NegativeFlowSeries(inp, k + 1), length)))
  }

  function MfiSeries(inp: Inputs, length: int, n: nat): (r: seq<real>)
    ensures |r| == n
  {
    Tabulate((k: nat) => MfiAt(inp, length, k), n)
  }

  lemma PositiveFlowStep(inp: Inputs, pos: seq<real>, n: nat)
    requires pos == PositiveFlowSeries(inp, n)
    ensures PositiveFlowSeries(inp, n + 1) == pos + [UpFlow(At(inp.input, n), At(inp.input, n - 1), At(inp.volume, n))]
  {
    TabulateStep((k: nat) => UpFlow(At(inp.input, k), At(inp.input, k - 1), At(inp.volume, k)), n);
  }

  lemma NegativeFlowStep(inp: Inputs, neg: seq<real>, n: nat)
    requires neg == NegativeFlowSeries(inp, n)
    ensures NegativeFlowSeries(inp, n + 1) == neg + [DownFlow(At(inp.input, n), At(inp.input, n - 1), At(inp.volume, n))]
  {
    TabulateStep((k: nat) => DownFlow(At(inp.input, k), At(inp.input, k - 1), At(inp.volume, k)), n);
  }

  lemma MfiSeriesStep(inp: Inputs, length: int, mfi: seq<real>, n: nat)
    requires mfi == MfiSeries(inp, length, n)
    ensures MfiSeries(inp, length, n + 1) == mfi + [MfiAt(inp, length, n)]
  {
    TabulateStep((k: nat) => MfiAt(inp, length, k), n);
  }

  /** Bar k's positive flow is its raw money flow when the typical price
      rose and 0 otherwise, its negative flow the same when the price fell;
      so at most one of the two is non-zero. */
  lemma MoneyFlowSplit(inp: Inputs, n: nat, k: nat)
    requires k < n
    ensures var price, prevPrice, raw := At(inp.input, k), At(inp.input, k - 1), At(inp.input, k) * At(inp.volume, k);
            && PositiveFlowSeries(inp, n)[k] == (if price > prevPrice then raw else 0.0)
            && NegativeFlowSeries(inp, n)[k] == (if price < prevPrice then raw else 0.0)
            && (PositiveFlowSeries(inp, n)[k] == 0.0 || NegativeFlowSeries(inp, n)[k] == 0.0)
  {
    TabulateAt((j: nat) => UpFlow(At(inp.input, j), At(inp.input, j - 1), At(inp.volume, j)), n, k);
    TabulateAt((j: nat) => DownFlow(At(inp.input, j), At(inp.input, j - 1), At(inp.volume, j)), n, k);
  }

  /** The three rules of the index: 100 exactly when the negative total is 0
      (whatever the positive total), otherwise 0 when the positive total is 0,
      otherwise the clamped ratio keeps it in [0, 50]; it never lies in (50, 100). */
  lemma MfiValueRange(posTotal: real, negTotal: real)
    ensures negTotal == 0.0 <==> MfiValue(posTotal, negTotal) == 100.0
    ensures negTotal != 0.0 && posTotal == 0.0 ==> MfiValue(posTotal, negTotal) == 0.0
    ensures negTotal != 0.0 ==> 0.0 <= MfiValue(posTotal, negTotal) <= 50.0
    ensures !(50.0 < MfiValue(posTotal, negTotal) < 100.0)
  {
    if negTotal != 0.0 && posTotal != 0.0 {
      var ratio := MinOrMax(posTotal / negTotal, 1.0, 0.0);
      assert 1.0 <= 1.0 + ratio <= 2.0;
      assert 50.0 <= 100.0 / (1.0 + ratio) <= 100.0;
    }
  }

  /** Bar k's totals are the sums of the flows of bars max(0, k - length + 1) .. k. */
  lemma MfiWindowTotals(inp: Inputs, length: int, n: nat, k: nat)
    requires k < n && length >= 1
    ensures MfiSeries(inp, length, n)[k]
         == MfiValue(SumRange(PositiveFlowSeries(inp, k + 1), WindowStart(k, length), k + 1),
                     SumRange(NegativeFlowSeries(inp, k + 1), WindowStart(k, length), k + 1))
  {
    TabulateAt((j: nat) => MfiAt(inp, length, j), n, k);
    TakeLastSumIsWindowSum(PositiveFlowSeries(inp, k + 1), k, length);
    TakeLastSumIsWindowSum(NegativeFlowSeries(inp, k + 1), k, length);
  }

  /** Every bar of the Money Flow Index is 100 or lies in [0, 50]. */
  lemma MfiSeriesRange(inp: Inputs, length: int, n: nat, k: nat)
    requires k < n
    ensures var mfi := MfiSeries(inp, length, n)[k]; mfi == 100.0 || 0.0 <= mfi <= 50.0
  {
    TabulateAt((j: nat) => MfiAt(inp, length, j), n, k);
    MfiValueRange(Sum(TakeLast(PositiveFlowSeries(inp, k + 1), length)),
                  Sum(TakeLast(NegativeFlowSeries(inp, k + 1), length)));
  }

  method CalculateMoneyFlowIndex(stockData: StockData, inp: Inputs, rsi: RsiClassifier, length: int)
    modifies stockData
    ensures var mfi := MfiSeries(inp, length, stockData.Count);
            && stockData.OutputValues == map["Mfi" := mfi]
            && stockData.SignalsList == RsiSignals(rsi, mfi, 80.0, 20.0, stockData.Count)
            && stockData.CustomValuesList == mfi
            && stockData.IndicatorName == Indicator.MoneyFlowIndex
  {
    var mfiList: seq<real> := [];
    var posMoneyFlowList: seq<real> := [];
    var negMoneyFlowList: seq<real> := [];
    var signalsList: seq<Signal> := [];
    for i := 0 to stockData.Count
      invariant posMoneyFlowList == PositiveFlowSeries(inp, i)
      invariant negMoneyFlowList == NegativeFlowSeries(inp, i)
      invariant mfiList == MfiSeries(inp, length, i)
      invariant signalsList == RsiSignals(rsi, mfiList, 80.0, 20.0, i)
    {
      var currentVolume := At(inp.volume, i);
      var typicalPrice := At(inp.input, i);
      var prevTypicalPrice := At(inp.input, i - 1);
      var prevMfi1 := At(mfiList, i - 1);
      var prevMfi2 := At(mfiList, i - 2);

      var posMoneyFlow := UpFlow(typicalPrice, prevTypicalPrice, currentVolume);
      PositiveFlowStep(inp, posMoneyFlowList, i);
      posMoneyFlowList := posMoneyFlowList + [posMoneyFlow];

      var negMoneyFlow := DownFlow(typicalPrice, prevTypicalPrice, currentVolume);
      NegativeFlowStep(inp, negMoneyFlowList, i);
      negMoneyFlowList := negMoneyFlowList + [negMoneyFlow];

      var posMoneyFlowTotal := Sum(TakeLast(posMoneyFlowList, length));
      var negMoneyFlowTotal := Sum(TakeLast(negMoneyFlowList, length));
      var mfi := MfiValue(posMoneyFlowTotal, negMoneyFlowTotal);
      assert mfi == MfiAt(inp, length, i);
      MfiSeriesStep(inp, length, mfiList, i);
      RsiSignalsAppend(rsi, mfiList, mfi, 80.0, 20.0, i);
      mfiList := mfiList + [mfi];

      var signal := RsiSignal(rsi, mfi, prevMfi1, prevMfi2, 80.0, 20.0);
      signalsList := signalsList + [signal];
    }

    stockData.OutputValues := map["Mfi" := mfiList];
    stockData.SignalsList := signalsList;
    stockData.CustomValuesList := mfiList;
    stockData.IndicatorName := Indicator.MoneyFlowIndex;
  }

  // ===========================================================================
  // Klinger Volume Oscillator (Calculations/Oscillator.cs:461-535)

  /** The four lists of the first Klinger loop. */
  datatype KlingerLists = KlingerLists(trend: seq<real>, dm: seq<real>, cm: seq<real>, vf: seq<real>)

  /** 1 on an up bar, -1 on a down bar, else the previous trend. */
  function KlingerTrend(mom: real, prevTrend: real): real {
    if mom > 0.0 then 1.0 else if mom < 0.0 then -1.0 else prevTrend
  }

  /** `cm != 0 ? |2 * dm / cm - 1| : -1`. */
  function KlingerTemp(dm: real, cm: real): (r: real)
    ensures r == -1.0 <==> cm == 0.0
    ensures cm != 0.0 ==> r >= 0.0
  {
    if cm != 0.0 then Abs(2.0 * (dm / cm) - 1.0) else -1.0
  }

  /** The volume force `volume * temp * trend * 100`. */
  function KlingerForce(volume: real, temp: real, trend: real): real {
    volume * temp * trend * 100.0
  }

  /** Bar i of the first loop, appended to the lists it finds. */
  function KlingerStep(trend: seq<real>, dm: seq<real>, cm: seq<real>, vf: seq<real>, inp: Inputs, i: nat)
    : KlingerLists
  {
    var prevTrend := Last(trend);
    var t := KlingerTrend(At(inp.input, i) - At(inp.input, i - 1), prevTrend);
    var prevDm := Last(dm);
    var d := At(inp.high, i) - At(inp.low, i);
    var prevCm := Last(cm);
    var c := if t == prevTrend then prevCm + d else prevDm + d;
    var v := KlingerForce(At(inp.volume, i), KlingerTemp(d, c), t);
    KlingerLists(trend + [t], dm + [d], cm + [c], vf + [v])
  }

  function KlingerBars(inp: Inputs, n: nat): KlingerLists {
    Iterate((s: KlingerLists, k: nat) => KlingerStep(s.trend, s.dm, s.cm, s.vf, inp, k), KlingerLists([], [], [], []), n)
  }

  lemma KlingerBarsStep(inp: Inputs, trend: seq<real>, dm: seq<real>, cm: seq<real>, vf: seq<real>, n: nat)
    requires KlingerLists(trend, dm, cm, vf) == KlingerBars(inp, n)
    ensures KlingerBars(inp, n + 1) == KlingerStep(trend, dm, cm, vf, inp, n)
  {
    IterateStep((s: KlingerLists, k: nat) => KlingerStep(s.trend, s.dm, s.cm, s.vf, inp, k), KlingerLists([], [], [], []), n);
  }

  /** Bar n's values, as the loop computes them, extend the lists of bars 0 .. n - 1. */
  lemma KlingerBarsNext(inp: Inputs, trend: seq<real>, dm: seq<real>, cm: seq<real>, vf: seq<real>, n: nat,
                        t: real, d: real, c: real, v: real)
    requires KlingerLists(trend, dm, cm, vf) == KlingerBars(inp, n)
    requires t == KlingerTrend(At(inp.input, n) - At(inp.input, n - 1), Last(trend))
    requires d == At(inp.high, n) - At(inp.low, n)
    requires c == (if t == Last(trend) then Last(cm) + d else Last(dm) + d)
    requires v == KlingerForce(At(inp.volume, n), KlingerTemp(d, c), t)
    ensures KlingerBars(inp, n + 1) == KlingerLists(trend + [t], dm + [d], cm + [c], vf + [v])
  {
    KlingerBarsStep(inp, trend, dm, cm, vf, n);
  }

  /** After n bars each list holds n values. */
  lemma {:induction false} KlingerBarsLength(inp: Inputs, n: nat)
    ensures var b := KlingerBars(inp, n); |b.trend| == n && |b.dm| == n && |b.cm| == n && |b.vf| == n
  {
    if n > 0 {
      var p := KlingerBars(inp, n - 1);
      KlingerBarsLength(inp, n - 1);
      KlingerBarsStep(inp, p.trend, p.dm, p.cm, p.vf, n - 1);
    }
  }

  /** The lists after m <= n bars are prefixes of those after n bars. */
  lemma {:induction false} KlingerBarsPrefix(inp: Inputs, m: nat, n: nat)
    requires m <= n
    ensures var a, b := KlingerBars(inp, m), KlingerBars(inp, n);
            a.trend <= b.trend && a.dm <= b.dm && a.cm <= b.cm && a.vf <= b.vf
    decreases n
  {
    if m < n {
      var p := KlingerBars(inp, n - 1);
      KlingerBarsPrefix(inp, m, n - 1);
      KlingerBarsStep(inp, p.trend, p.dm, p.cm, p.vf, n - 1);
    }
  }

  /** Bar k of the four lists, read back from the lists after n > k bars. */
  lemma KlingerBarAt(inp: Inputs, n: nat, k: nat)
    requires k < n
    ensures var b := KlingerBars(inp, n);
            && |b.trend| == n && |b.dm| == n && |b.cm| == n && |b.vf| == n
            && b.trend[k] == KlingerTrend(At(inp.input, k) - At(inp.input, k - 1), At(b.trend, k - 1))
            && b.dm[k] == At(inp.high, k) - At(inp.low, k)
            && b.cm[k] == (if b.trend[k] == At(b.trend, k - 1) then At(b.cm, k - 1) + b.dm[k] else At(b.dm, k - 1) + b.dm[k])
            && b.vf[k] == KlingerForce(At(inp.volume, k), KlingerTemp(b.dm[k], b.cm[k]), b.trend[k])
  {
    var p := KlingerBars(inp, k);
    KlingerBarsLength(inp, k);
    KlingerBarsLength(inp, n);
    KlingerBarsPrefix(inp, k, n);
    KlingerBarsPrefix(inp, k + 1, n);
    KlingerBarsStep(inp, p.trend, p.dm, p.cm, p.vf, k);
    var b := KlingerBars(inp, n);
    assert Last(p.trend) == At(b.trend, k - 1);
    assert Last(p.dm) == At(b.dm, k - 1);
    assert Last(p.cm) == At(b.cm, k - 1);
  }

  /** `trend` is always -1, 0 or 1. */
  lemma {:induction false} KlingerTrendValues(inp: Inputs, n: nat, k: nat)
    requires k < n
    ensures var t := At(KlingerBars(inp, n).trend, k); t == -1.0 || t == 0.0 || t == 1.0
  {
    KlingerBarAt(inp, n, k);
    if k > 0 {
      KlingerTrendValues(inp, n, k - 1);
    }
  }

  /** Once `trend` is non-zero it never returns to 0. */
  lemma {:induction false} KlingerTrendSticks(inp: Inputs, n: nat, j: nat, k: nat)
    requires j <= k < n
    requires At(KlingerBars(inp, n).trend, j) != 0.0
    ensures At(KlingerBars(inp, n).trend, k) != 0.0
    decreases k
  {
    if j < k {
      KlingerBarAt(inp, n, k);
      KlingerTrendSticks(inp, n, j, k - 1);
    }
  }

  /** While the trend holds, `cm` accumulates `dm`: over a run of bars
      j + 1 .. k with the trend of bar j, `cm[k]` is `cm[j]` plus their `dm`s. */
  lemma {:induction false} KlingerCmAccumulates(inp: Inputs, n: nat, j: nat, k: nat)
    requires j <= k < n
    requires forall m :: j < m <= k ==> At(KlingerBars(inp, n).trend, m) == At(KlingerBars(inp, n).trend, j)
    ensures var b := KlingerBars(inp, n); |b.dm| == n && At(b.cm, k) == At(b.cm, j) + SumRange(b.dm, j + 1, k + 1)
    decreases k
  {
    KlingerBarsLength(inp, n);
    if j < k {
      var b := KlingerBars(inp, n);
      KlingerBarAt(inp, n, k);
      KlingerCmAccumulates(inp, n, j, k - 1);
      assert At(b.trend, k) == At(b.trend, j);
      assert At(b.trend, k - 1) == At(b.trend, j);
      assert b.trend[k] == At(b.trend, k) && b.cm[k] == At(b.cm, k);
    }
  }

  /** When the trend changes at bar k, `cm` restarts from the previous bar's
      `dm` instead of accumulating onto the previous `cm`. */
  lemma KlingerCmRestarts(inp: Inputs, n: nat, k: nat)
    requires k < n
    requires At(KlingerBars(inp, n).trend, k) != At(KlingerBars(inp, n).trend, k - 1)
    ensures var b := KlingerBars(inp, n);
            At(b.cm, k) == At(b.dm, k - 1) + At(inp.high, k) - At(inp.low, k)
  {
    KlingerBarAt(inp, n, k);
  }

  method CalculateKlingerVolumeOscillator(stockData: StockData, inp: Inputs, ma: MovingAverage,
                                          compare: CompareClassifier,
                                          fastLength: int, slowLength: int, signalLength: int)
    modifies stockData
    ensures var n := stockData.Count;
            var vf := KlingerBars(inp, n).vf;
            var kvo := Differences(ma(fastLength, vf), ma(slowLength, vf), n);
            var kvoSignal := ma(signalLength, kvo);
            var histogram := Differences(kvo, kvoSignal, n);
            && stockData.OutputValues == map["Kvo" := kvo, "KvoSignal" := kvoSignal, "KvoHistogram" := histogram]
            && stockData.SignalsList == TrendSignals(compare, histogram, n)
            && stockData.CustomValuesList == kvo
            && stockData.IndicatorName == Indicator.KlingerVolumeOscillator
  {
    var kvoList: seq<real> := [];
    var trendList: seq<real> := [];
    var dmList: seq<real> := [];
    var cmList: seq<real> := [];
    var vfList: seq<real> := [];
    var kvoHistoList: seq<real> := [];
    var signalsList: seq<Signal> := [];

    for i := 0 to stockData.Count
      invariant KlingerLists(trendList, dmList, cmList, vfList) == KlingerBars(inp, i)
    {
      ghost var trend0, dm0, cm0 := trendList, dmList, cmList;
      var currentHigh := At(inp.high, i);
      var currentLow := At(inp.low, i);
      var currentValue := At(inp.input, i);
      var currentVolume := At(inp.volume, i);
      var prevValue := At(inp.input, i - 1);
      var mom := currentValue - prevValue;

      var prevTrend := Last(trendList);
      var trend := KlingerTrend(mom, prevTrend);
      trendList := trendList + [trend];

      var prevDm := Last(dmList);
      var dm := currentHigh - currentLow;
      dmList := dmList + [dm];

      var prevCm := Last(cmList);
      var cm := if trend == prevTrend then prevCm + dm else prevDm + dm;
      cmList := cmList + [cm];

      var temp := KlingerTemp(dm, cm);
      var vf := KlingerForce(currentVolume, temp, trend);
      KlingerBarsNext(inp, trend0, dm0, cm0, vfList, i, trend, dm, cm, vf);
      vfList := vfList + [vf];
    }

    var ema34List := ma(fastLength, vfList);
    var ema55List := ma(slowLength, vfList);
    for i := 0 to stockData.Count
      invariant kvoList == Differences(ema34List, ema55List, i)
    {
      DifferencesStep(ema34List, ema55List, kvoList, i);
      var ema34 := At(ema34List, i);
      var ema55 := At(ema55List, i);

      var klingerOscillator := ema34 - ema55;
      kvoList := kvoList + [klingerOscillator];
    }

    var kvoSignalList := ma(signalLength, kvoList);
    for k := 0 to stockData.Count
      invariant kvoHistoList == Differences(kvoList, kvoSignalList, k)
      invariant signalsList == TrendSignals(compare, kvoHistoList, k)
    {
      DifferencesStep(kvoList, kvoSignalList, kvoHistoList, k);
      var klingerOscillator := At(kvoList, k);
      var koSignalLine := At(kvoSignalList, k);

      var prevKlingerOscillatorHistogram := Last(kvoHistoList);
      var klingerOscillatorHistogram := klingerOscillator - koSignalLine;
      TrendSignalsAppend(compare, kvoHistoList, klingerOscillatorHistogram, k);
      kvoHistoList := kvoHistoList + [klingerOscillatorHistogram];

      var signal := compare(klingerOscillatorHistogram, prevKlingerOscillatorHistogram);
      signalsList := signalsList + [signal];
    }

    stockData.OutputValues := map["Kvo" := kvoList, "KvoSignal" := kvoSignalList, "KvoHistogram" := kvoHistoList];
    stockData.SignalsList := signalsList;
    stockData.CustomValuesList := kvoList;
    stockData.IndicatorName := Indicator.KlingerVolumeOscillator;
  }

  // ===========================================================================
  // On Balance Volume (Calculations/Oscillator.cs:544-583)

  /** Bar i's OBV from the previous one: volume is added on an up close,
      subtracted on a down close, and the value holds on an unchanged close. */
  function ObvStep(prevObv: real, inp: Inputs, i: nat): real {
    var close, prevClose, volume := At(inp.input, i), At(inp.input, i - 1), At(inp.volume, i);
    if close > prevClose then prevObv + volume
    else if close < prevClose then prevObv - volume
    else prevObv
  }

  function ObvSeries(inp: Inputs, n: nat): (r: seq<real>)
    ensures |r| == n
  {
    Scan((prev: real, k: nat) => ObvStep(prev, inp, k), n)
  }

  lemma ObvSeriesStep(inp: Inputs, obv: seq<real>, n: nat)
    requires obv == ObvSeries(inp, n)
    ensures ObvSeries(inp, n + 1) == obv + [ObvStep(Last(obv), inp, n)]
  {
    ScanStep((prev: real, k: nat) => ObvStep(prev, inp, k), n);
  }

  /** Bar k's OBV moves by +volume, -volume or 0 as the close is above, below
      or equal to the previous close; before bar 0 the close and OBV are 0. */
  lemma ObvChange(inp: Inputs, n: nat, k: nat)
    requires k < n
    ensures var obv := ObvSeries(inp, n);
            var close, prevClose, volume := At(inp.input, k), At(inp.input, k - 1), At(inp.volume, k);
            obv[k] - At(obv, k - 1) == (if close > prevClose then volume else if close < prevClose then -volume else 0.0)
  {
    ScanAt((prev: real, j: nat) => ObvStep(prev, inp, j), n, k);
  }

  method CalculateOnBalanceVolume(stockData: StockData, inp: Inputs, ma: MovingAverage,
                                  compare: CompareClassifier, length: int)
    modifies stockData
    ensures var obv := ObvSeries(inp, stockData.Count);
            var obvSignal := ma(length, obv);
            && stockData.OutputValues == map["Obv" := obv, "ObvSignal" := obvSignal]
            && stockData.SignalsList == CrossSignals(compare, obv, obvSignal, stockData.Count)
            && stockData.CustomValuesList == obv
            && stockData.IndicatorName == Indicator.OnBalanceVolume
  {
    var obvList: seq<real> := [];
    var signalsList: seq<Signal> := [];
    for i := 0 to stockData.Count
      invariant obvList == ObvSeries(inp, i)
    {
      ObvSeriesStep(inp, obvList, i);
      var currentValue := At(inp.input, i);
      var currentVolume := At(inp.volume, i);
      var prevValue := At(inp.input, i - 1);

      var prevObv := Last(obvList);
      var obv := if currentValue > prevValue then prevObv + currentVolume
                 else if currentValue < prevValue then prevObv - currentVolume
                 else prevObv;
      obvList := obvList + [obv];
    }

    var obvSignalList := ma(length, obvList);
    for i := 0 to stockData.Count
      invariant signalsList == CrossSignals(compare, obvList, obvSignalList, i)
    {
      CrossSignalsStep(compare, obvList, obvSignalList, i);
      var obv := At(obvList, i);
      var prevObv := At(obvList, i - 1);
      var obvSig := At(obvSignalList, i);
      var prevObvSig := At(obvSignalList, i - 1);

      var signal := CrossSignal(compare, obv, prevObv, obvSig, prevObvSig);
      signalsList := signalsList + [signal];
    }

    stockData.OutputValues := map["Obv" := obvList, "ObvSignal" := obvSignalList];
    stockData.SignalsList := signalsList;
    stockData.CustomValuesList := obvList;
    stockData.IndicatorName := Indicator.OnBalanceVolume;
  }

  // ===========================================================================
  // Negative and Positive Volume Index (Calculations/Oscillator.cs:592-683)

  /** `CalculatePercentChange(current, previous)`, not part of this model. */
  type PercentChange = (real, real) -> real

  /** `prev` when the bar holds, else `prev + prev * pctChg`. */
  function VolumeIndexValue(hold: bool, prev: real, pctChg: real): real {
    if hold then prev else prev + (prev * pctChg)
  }

  /** Bar i of NVI (`negative`): it holds unless the volume fell. Bar i of
      PVI (`!negative`): it holds unless the volume rose. */
  function VolumeIndexStep(prev: real, inp: Inputs, pctChange: PercentChange, negative: bool, i: nat): real {
    var volume, prevVolume := At(inp.volume, i), At(inp.volume, i - 1);
    var pctChg := pctChange(At(inp.input, i), At(inp.input, i - 1));
    VolumeIndexValue(if negative then volume >= prevVolume else volume <= prevVolume, prev, pctChg)
  }

  function VolumeIndexSeries(inp: Inputs, pctChange: PercentChange, negative: bool, n: nat): (r: seq<real>)
    ensures |r| == n
  {
    Scan((prev: real, k: nat) => VolumeIndexStep(prev, inp, pctChange, negative, k), n)
  }

  lemma VolumeIndexStepAppend(inp: Inputs, pctChange: PercentChange, negative: bool, vi: seq<real>, n: nat)
    requires vi == VolumeIndexSeries(inp, pctChange, negative, n)
    ensures VolumeIndexSeries(inp, pctChange, negative, n + 1)
         == vi + [VolumeIndexStep(Last(vi), inp, pctChange, negative, n)]
  {
    ScanStep((prev: real, k: nat) => VolumeIndexStep(prev, inp, pctChange, negative, k), n);
  }

  /** Both indices start from the empty-list default 0 and every step is
      `prev` or `prev + prev * pctChg`, so every value is 0, whatever the
      prices, volumes and percent change. */
  lemma {:induction false} VolumeIndexIsZero(inp: Inputs, pctChange: PercentChange, negative: bool, n: nat, k: nat)
    requires k < n
    ensures VolumeIndexSeries(inp, pctChange, negative, n)[k] == 0.0
  {
    var vi := VolumeIndexSeries(inp, pctChange, negative, n);
    ScanAt((prev: real, j: nat) => VolumeIndexStep(prev, inp, pctChange, negative, j), n, k);
    if k > 0 {
      VolumeIndexIsZero(inp, pctChange, negative, n, k - 1);
    }
    assert At(vi, k - 1) == 0.0;
  }

  method CalculateNegativeVolumeIndex(stockData: StockData, inp: Inputs, ma: MovingAverage,
                                      compare: CompareClassifier, pctChange: PercentChange, length: int)
    modifies stockData
    ensures var nvi := VolumeIndexSeries(inp, pctChange, true, stockData.Count);
            var nviSignal := ma(length, nvi);
            && stockData.OutputValues == map["Nvi" := nvi, "NviSignal" := nviSignal]
            && stockData.SignalsList == CrossSignals(compare, nvi, nviSignal, stockData.Count)
            && stockData.CustomValuesList == nvi
            && stockData.IndicatorName == Indicator.NegativeVolumeIndex
  {
    var nviList: seq<real> := [];
    var signalsList: seq<Signal> := [];
    for i := 0 to stockData.Count
      invariant nviList == VolumeIndexSeries(inp, pctChange, true, i)
    {
      VolumeIndexStepAppend(inp, pctChange, true, nviList, i);
      var currentClose := At(inp.input, i);
      var currentVolume := At(inp.volume, i);
      var prevClose := At(inp.input, i - 1);
      var prevVolume := At(inp.volume, i - 1);
      var pctChg := pctChange(currentClose, prevClose);

      var prevNvi := Last(nviList);
      var nvi := VolumeIndexValue(currentVolume >= prevVolume, prevNvi, pctChg);
      nviList := nviList + [nvi];
    }

    var nviSignalList := ma(length, nviList);
    for i := 0 to stockData.Count
      invariant signalsList == CrossSignals(compare, nviList, nviSignalList, i)
    {
      CrossSignalsStep(compare, nviList, nviSignalList, i);
      var nvi := At(nviList, i);
      var prevNvi := At(nviList, i - 1);
      var nviSignal := At(nviSignalList, i);
      var prevNviSignal := At(nviSignalList, i - 1);

      var signal := CrossSignal(compare, nvi, prevNvi, nviSignal, prevNviSignal);
      signalsList := signalsList + [signal];
    }

    stockData.OutputValues := map["Nvi" := nviList, "NviSignal" := nviSignalList];
    stockData.SignalsList := signalsList;
    stockData.CustomValuesList := nviList;
    stockData.IndicatorName := Indicator.NegativeVolumeIndex;
  }

  method CalculatePositiveVolumeIndex(stockData: StockData, inp: Inputs, ma: MovingAverage,
                                      compare: CompareClassifier, pctChange: PercentChange, length: int)
    modifies stockData
    ensures var pvi := VolumeIndexSeries(inp, pctChange, false, stockData.Count);
            var pviSignal := ma(length, pvi);
            && stockData.OutputValues == map["Pvi" := pvi, "PviSignal" := pviSignal]
            && stockData.SignalsList == CrossSignals(compare, pvi, pviSignal, stockData.Count)
            && stockData.CustomValuesList == pvi
            && stockData.IndicatorName == Indicator.PositiveVolumeIndex
  {
    var pviList: seq<real> := [];
    var signalsList: seq<Signal> := [];
    for i := 0 to stockData.Count
      invariant pviList == VolumeIndexSeries(inp, pctChange, false, i)
    {
      VolumeIndexStepAppend(inp, pctChange, false, pviList, i);
      var currentClose := At(inp.input, i);
      var currentVolume := At(inp.volume, i);
      var prevClose := At(inp.input, i - 1);
      var prevVolume := At(inp.volume, i - 1);
      var pctChg := pctChange(currentClose, prevClose);

      var prevPvi := Last(pviList);
      var pvi := VolumeIndexValue(currentVolume <= prevVolume, prevPvi, pctChg);
      pviList := pviList + [pvi];
    }

    var pviSignalList := ma(length, pviList);
    for i := 0 to stockData.Count
      invariant signalsList == CrossSignals(compare, pviList, pviSignalList, i)
    {
      CrossSignalsStep(compare, pviList, pviSignalList, i);
      var pvi := At(pviList, i);
      var prevPvi := At(pviList, i - 1);
      var pviSignal := At(pviSignalList, i);
      var prevPviSignal := At(pviSignalList, i - 1);

      var signal := CrossSignal(compare, pvi, prevPvi, pviSignal, prevPviSignal);
      signalsList := signalsList + [signal];
    }

    stockData.OutputValues := map["Pvi" := pviList, "PviSignal" := pviSignalList];
    stockData.SignalsList := signalsList;
    stockData.CustomValuesList := pviList;
    stockData.IndicatorName := Indicator.PositiveVolumeIndex;
  }

  /** Corrected: the index starts from a base value `start` (1000 in the usual
      definition) instead of the empty-list default 0. */
  function VolumeIndexSeriesFrom(inp: Inputs, pctChange: PercentChange, negative: bool, start: real, n: nat)
    : (r: seq<real>)
    ensures |r| == n
  {
    Scan((prev: real, k: nat) => VolumeIndexStep(if k == 0 then start else prev, inp, pctChange, negative, k), n)
  }

  /** The factor bar k applies to the index: 1 when it holds, and
      `1 + pctChg` when it moves. */
  function VolumeIndexFactor(inp: Inputs, pctChange: PercentChange, negative: bool, k: nat): real {
    VolumeIndexStep(1.0, inp, pctChange, negative, k)
  }

  /** The product of the factors of bars 0 .. k. */
  function VolumeIndexGrowth(inp: Inputs, pctChange: PercentChange, negative: bool, k: nat): real {
    if k == 0 then VolumeIndexFactor(inp, pctChange, negative, 0)
    else VolumeIndexGrowth(inp, pctChange, negative, k - 1) * VolumeIndexFactor(inp, pctChange, negative, k)
  }

  lemma VolumeIndexStepScales(prev: real, inp: Inputs, pctChange: PercentChange, negative: bool, k: nat)
    ensures VolumeIndexStep(prev, inp, pctChange, negative, k) == prev * VolumeIndexFactor(inp, pctChange, negative, k)
  {
  }

  lemma VolumeIndexFromStepAppend(inp: Inputs, pctChange: PercentChange, negative: bool, start: real,
                                  vi: seq<real>, n: nat)
    requires vi == VolumeIndexSeriesFrom(inp, pctChange, negative, start, n)
    ensures VolumeIndexSeriesFrom(inp, pctChange, negative, start, n + 1)
         == vi + [VolumeIndexStep(if n == 0 then start else Last(vi), inp, pctChange, negative, n)]
  {
    ScanStep((prev: real, k: nat) => VolumeIndexStep(if k == 0 then start else prev, inp, pctChange, negative, k), n);
  }

  /** Corrected: bar k of the index is the base times the product of the
      factors of bars 0 .. k, so each moving bar compounds its percent change. */
  lemma {:induction false} VolumeIndexCompounds(inp: Inputs, pctChange: PercentChange, negative: bool, start: real,
                                                n: nat, k: nat)
    requires k < n
    ensures VolumeIndexSeriesFrom(inp, pctChange, negative, start, n)[k]
         == start * VolumeIndexGrowth(inp, pctChange, negative, k)
  {
    var vi := VolumeIndexSeriesFrom(inp, pctChange, negative, start, n);
    ScanAt((prev: real, j: nat) => VolumeIndexStep(if j == 0 then start else prev, inp, pctChange, negative, j), n, k);
    if k == 0 {
      VolumeIndexStepScales(start, inp, pctChange, negative, 0);
    } else {
      VolumeIndexCompounds(inp, pctChange, negative, start, n, k - 1);
      VolumeIndexStepScales(vi[k - 1], inp, pctChange, negative, k);
      ScaledProduct(vi[k - 1], start, VolumeIndexGrowth(inp, pctChange, negative, k - 1),
                    VolumeIndexFactor(inp, pctChange, negative, k));
    }
  }

  lemma ScaledProduct(prev: real, start: real, g: real, f: real)
    requires prev == start * g
    ensures prev * f == start * (g * f)
  {
  }

  /** Corrected: a positive base, and a percent change above -1 on each of
      bars 0 .. k, keep bar k of the index positive. */
  lemma {:induction false} VolumeIndexStaysPositive(inp: Inputs, pctChange: PercentChange, negative: bool, start: real,
                                                    n: nat, k: nat)
    requires k < n && start > 0.0
    requires forall j :: 0 <= j <= k ==> pctChange(At(inp.input, j), At(inp.input, j - 1)) > -1.0
    ensures VolumeIndexSeriesFrom(inp, pctChange, negative, start, n)[k] > 0.0
  {
    VolumeIndexGrowthPositive(inp, pctChange, negative, k);
    VolumeIndexCompounds(inp, pctChange, negative, start, n, k);
  }

  lemma {:induction false} VolumeIndexGrowthPositive(inp: Inputs, pctChange: PercentChange, negative: bool, k: nat)
    requires forall j :: 0 <= j <= k ==> pctChange(At(inp.input, j), At(inp.input, j - 1)) > -1.0
    ensures VolumeIndexGrowth(inp, pctChange, negative, k) > 0.0
  {
    assert pctChange(At(inp.input, k), At(inp.input, k - 1)) > -1.0;
    assert VolumeIndexFactor(inp, pctChange, negative, k) > 0.0;
    if k > 0 {
      VolumeIndexGrowthPositive(inp, pctChange, negative, k - 1);
    }
  }

  /** Corrected NVI (`negative`) or PVI (`!negative`), starting from `start`. */
  method CalculateVolumeIndexCorrected(stockData: StockData, inp: Inputs, ma: MovingAverage,
                                       compare: CompareClassifier, pctChange: PercentChange, length: int,
                                       negative: bool, start: real)
    modifies stockData
    ensures var vi := VolumeIndexSeriesFrom(inp, pctChange, negative, start, stockData.Count);
            var viSignal := ma(length, vi);
            && stockData.OutputValues == (if negative then map["Nvi" := vi, "NviSignal" := viSignal]
                                          else map["Pvi" := vi, "PviSignal" := viSignal])
            && stockData.SignalsList == CrossSignals(compare, vi, viSignal, stockData.Count)
            && stockData.CustomValuesList == vi
            && stockData.IndicatorName == (if negative then Indicator.NegativeVolumeIndex
                                           else Indicator.PositiveVolumeIndex)
  {
    var viList: seq<real> := [];
    var signalsList: seq<Signal> := [];
    for i := 0 to stockData.Count
      invariant viList == VolumeIndexSeriesFrom(inp, pctChange, negative, start, i)
    {
      VolumeIndexFromStepAppend(inp, pctChange, negative, start, viList, i);
      var currentClose := At(inp.input, i);
      var currentVolume := At(inp.volume, i);
      var prevClose := At(inp.input, i - 1);
      var prevVolume := At(inp.volume, i - 1);
      var pctChg := pctChange(currentClose, prevClose);

      var prevVi := if i == 0 then start else Last(viList);
      var hold := if negative then currentVolume >= prevVolume else currentVolume <= prevVolume;
      var vi := VolumeIndexValue(hold, prevVi, pctChg);
      viList := viList + [vi];
    }

    var viSignalList := ma(length, viList);
    for i := 0 to stockData.Count
      invariant signalsList == CrossSignals(compare, viList, viSignalList, i)
    {
      CrossSignalsStep(compare, viList, viSignalList, i);
      var vi := At(viList, i);
      var prevVi := At(viList, i - 1);
      var viSignal := At(viSignalList, i);
      var prevViSignal := At(viSignalList, i - 1);

      var signal := CrossSignal(compare, vi, prevVi, viSignal, prevViSignal);
      signalsList := signalsList + [signal];
    }

    stockData.OutputValues := if negative then map["Nvi" := viList, "NviSignal" := viSignalList]
                              else map["Pvi" := viList, "PviSignal" := viSignalList];
    stockData.SignalsList := signalsList;
    stockData.CustomValuesList := viList;
    stockData.IndicatorName := if negative then Indicator.NegativeVolumeIndex else Indicator.PositiveVolumeIndex;
  }

  // ===========================================================================
  // Accumulation/Distribution Line (Calculations/Oscillator.cs:936-979)

  /** The money-flow multiplier: where the close sits in the bar's range,
      from -1 at the low to 1 at the high, and 0 when high == low. */
  function MoneyFlowMultiplier(high: real, low: real, close: real): (r: real)
    ensures high == low ==> r == 0.0
    ensures low < high && low <= close <= high ==> -1.0 <= r <= 1.0
    ensures low < high && close == high ==> r == 1.0
    ensures low < high && close == low ==> r == -1.0
  {
    if high - low != 0.0 then
      var range := high - low;
      var num := close - low - (high - close);
      assert low < high && low <= close <= high ==> -1.0 <= num / range <= 1.0 by {
        if low < high && low <= close <= high {
          DivisionBounds(num, range);
        }
      }
      assert close == high ==> num / range == 1.0 by {
        if close == high {
          assert num == range;
        }
      }
      assert close == low ==> num / range == -1.0 by {
        if close == low {
          assert num == -range;
          assert num / range * range == num;
        }
      }
      num / range
    else 0.0
  }

  /** `multiplier * volume` of bar i. */
  function MoneyFlowVolume(high: real, low: real, close: real, volume: real): real {
    MoneyFlowMultiplier(high, low, close) * volume
  }

  function MoneyFlowVolumeAt(inp: Inputs, i: nat): real {
    MoneyFlowVolume(At(inp.high, i), At(inp.low, i), At(inp.input, i), At(inp.volume, i))
  }

  function MoneyFlowVolumeSeries(inp: Inputs, n: nat): (r: seq<real>)
    ensures |r| == n
  {
    Tabulate((k: nat) => MoneyFlowVolumeAt(inp, k), n)
  }

  function AdlSeries(inp: Inputs, n: nat): (r: seq<real>)
    ensures |r| == n
  {
    Scan((prev: real, k: nat) => prev + MoneyFlowVolumeAt(inp, k), n)
  }

  lemma AdlSeriesStep(inp: Inputs, adl: seq<real>, n: nat)
    requires adl == AdlSeries(inp, n)
    ensures AdlSeries(inp, n + 1) == adl + [Last(adl) + MoneyFlowVolumeAt(inp, n)]
  {
    ScanStep((prev: real, k: nat) => prev + MoneyFlowVolumeAt(inp, k), n);
  }

  /** The line is the running sum of `multiplier * volume`. */
  lemma {:induction false} AdlIsRunningSum(inp: Inputs, n: nat, k: nat)
    requires k < n
    ensures AdlSeries(inp, n)[k] == Sum(MoneyFlowVolumeSeries(inp, k + 1))
  {
    ScanAt((prev: real, j: nat) => prev + MoneyFlowVolumeAt(inp, j), n, k);
    TabulateStep((j: nat) => MoneyFlowVolumeAt(inp, j), k);
    var mfv := MoneyFlowVolumeSeries(inp, k + 1);
    assert mfv[..k] == MoneyFlowVolumeSeries(inp, k);
    if k > 0 {
      AdlIsRunningSum(inp, n, k - 1);
    }
  }

  method CalculateAccumulationDistributionLine(stockData: StockData, inp: Inputs, ma: MovingAverage,
                                               compare: CompareClassifier, length: int)
    modifies stockData
    ensures var adl := AdlSeries(inp, stockData.Count);
            var adlSignal := ma(length, adl);
            && stockData.OutputValues == map["Adl" := adl, "AdlSignal" := adlSignal]
            && stockData.SignalsList == CrossSignals(compare, adl, adlSignal, stockData.Count)
            && stockData.CustomValuesList == adl
            && stockData.IndicatorName == Indicator.AccumulationDistributionLine
  {
    var adlList: seq<real> := [];
    var signalsList: seq<Signal> := [];
    for i := 0 to stockData.Count
      invariant adlList == AdlSeries(inp, i)
    {
      AdlSeriesStep(inp, adlList, i);
      var currentLow := At(inp.low, i);
      var currentHigh := At(inp.high, i);
      var currentClose := At(inp.input, i);
      var currentVolume := At(inp.volume, i);
      var moneyFlowVolume := MoneyFlowVolume(currentHigh, currentLow, currentClose, currentVolume);

      var prevAdl := Last(adlList);
      var adl := prevAdl + moneyFlowVolume;
      adlList := adlList + [adl];
    }

    var adlSignalList := ma(length, adlList);
    for i := 0 to stockData.Count
      invariant signalsList == CrossSignals(compare, adlList, adlSignalList, i)
    {
      CrossSignalsStep(compare, adlList, adlSignalList, i);
      var adl := At(adlList, i);
      var prevAdl := At(adlList, i - 1);
      var adlSignal := At(adlSignalList, i);
      var prevAdlSignal := At(adlSignalList, i - 1);

      var signal := CrossSignal(compare, adl, prevAdl, adlSignal, prevAdlSignal);
      signalsList := signalsList + [signal];
    }

    stockData.OutputValues := map["Adl" := adlList, "AdlSignal" := adlSignalList];
    stockData.SignalsList := signalsList;
    stockData.CustomValuesList := adlList;
    stockData.IndicatorName := Indicator.AccumulationDistributionLine;
  }
}
