/** Trend indicators of `Calculations/Oscillator.cs`: Ichimoku Cloud, the
    Alligator and the Gator Oscillator built on it, SuperTrend and the Aroon
    Oscillator. Window extremes, moving averages and the average true range
    are computed by helpers outside this model and arrive as parameters. */
module TrendIndicators {
  import opened Series
  import opened Signals
  import opened Stock

  // ===========================================================================
  // Ichimoku Cloud (Calculations/Oscillator.cs:1030-1082)

  /** `(highest + lowest) / 2`. */
  function Midpoint(highest: real, lowest: real): real { (highest + lowest) / 2.0 }

  /** Bar k: the midpoint of bar k of `highs` and `lows`, each read with `ElementAtOrDefault`. */
  function MidpointSeries(highs: seq<real>, lows: seq<real>, n: nat): (r: seq<real>)
    ensures |r| == n
  {
    Tabulate((k: nat) => Midpoint(At(highs, k), At(lows, k)), n)
  }

  lemma MidpointSeriesStep(highs: seq<real>, lows: seq<real>, mid: seq<real>, n: nat)
    requires mid == MidpointSeries(highs, lows, n)
    ensures MidpointSeries(highs, lows, n + 1) == mid + [Midpoint(At(highs, n), At(lows, n))]
  {
    TabulateStep((k: nat) => Midpoint(At(highs, k), At(lows, k)), n);
  }

  lemma MidpointSeriesAt(highs: seq<real>, lows: seq<real>, n: nat, k: nat)
    requires k < n
    ensures MidpointSeries(highs, lows, n)[k] == Midpoint(At(highs, k), At(lows, k))
  {
    TabulateAt((j: nat) => Midpoint(At(highs, j), At(lows, j)), n, k);
  }

  /** A line of the cloud sits halfway between the highest high and the lowest
      low of its window, so it lies inside the window's range; the bar's own
      range (low <= high) puts the lowest low at or below the highest high. */
  lemma IchimokuLineInRange(inp: Inputs, highest: seq<real>, lowest: seq<real>, length: int, n: nat, k: nat)
    requires k < n && length >= 1
    requires k < |inp.high| && k < |inp.low| && k < |highest| && k < |lowest|
    requires highest[k] == SeqMax(Window(inp.high, k, length))
    requires lowest[k] == SeqMin(Window(inp.low, k, length))
    requires inp.low[k] <= inp.high[k]
    ensures lowest[k] <= MidpointSeries(highest, lowest, n)[k] <= highest[k]
    ensures MidpointSeries(highest, lowest, n)[k] - lowest[k] == highest[k] - MidpointSeries(highest, lowest, n)[k]
  {
    MidpointSeriesAt(highest, lowest, n, k);
    assert inp.high[k] <= highest[k] by { WindowBoundsBar(inp.high, k, length); }
    assert lowest[k] <= inp.low[k] by { WindowBoundsBar(inp.low, k, length); }
  }

  /** Senkou Span A lies between the conversion line and the base line. */
  lemma SenkouSpanABetween(tenkan: seq<real>, kiiun: seq<real>, n: nat, k: nat)
    requires k < n
    ensures var a := MidpointSeries(tenkan, kiiun, n)[k];
            Min(At(tenkan, k), At(kiiun, k)) <= a <= Max(At(tenkan, k), At(kiiun, k))
  {
    MidpointSeriesAt(tenkan, kiiun, n, k);
  }

  method CalculateIchimokuCloud(stockData: StockData, inp: Inputs, maxMin: MaxAndMinOfTwo, compare: CompareClassifier,
                                tenkanLength: int, kiiunLength: int, senkouLength: int)
    modifies stockData
    ensures var t, b, s := maxMin(inp.high, inp.low, tenkanLength), maxMin(inp.high, inp.low, kiiunLength),
                           maxMin(inp.high, inp.low, senkouLength);
            var tenkan := MidpointSeries(t.0, t.1, stockData.Count);
            var kiiun := MidpointSeries(b.0, b.1, stockData.Count);
            && stockData.OutputValues == map["TenkanSen" := tenkan, "KiiunSen" := kiiun,
                                             "SenkouSpanA" := MidpointSeries(tenkan, kiiun, stockData.Count),
                                             "SenkouSpanB" := MidpointSeries(s.0, s.1, stockData.Count)]
            && stockData.SignalsList == CrossSignals(compare, tenkan, kiiun, stockData.Count)
            && stockData.CustomValuesList == []
            && stockData.IndicatorName == Indicator.IchimokuCloud
  {
    var tenkanSenList: seq<real> := [];
    var kiiunSenList: seq<real> := [];
    var senkouSpanAList: seq<real> := [];
    var senkouSpanBList: seq<real> := [];
    var signalsList: seq<Signal> := [];
    var tenkanExtremes := maxMin(inp.high, inp.low, tenkanLength);
    var kiiunExtremes := maxMin(inp.high, inp.low, kiiunLength);
    var senkouExtremes := maxMin(inp.high, inp.low, senkouLength);
    var tenkanHighList, tenkanLowList := tenkanExtremes.0, tenkanExtremes.1;
    var kiiunHighList, kiiunLowList := kiiunExtremes.0, kiiunExtremes.1;
    var senkouHighList, senkouLowList := senkouExtremes.0, senkouExtremes.1;
    ghost var tenkanAll := MidpointSeries(tenkanHighList, tenkanLowList, stockData.Count);
    ghost var kiiunAll := MidpointSeries(kiiunHighList, kiiunLowList, stockData.Count);
    for i := 0 to stockData.Count
      invariant tenkanSenList == MidpointSeries(tenkanHighList, tenkanLowList, i)
      invariant kiiunSenList == MidpointSeries(kiiunHighList, kiiunLowList, i)
      invariant senkouSpanAList == MidpointSeries(tenkanAll, kiiunAll, i)
      invariant senkouSpanBList == MidpointSeries(senkouHighList, senkouLowList, i)
      invariant signalsList == CrossSignals(compare, tenkanSenList, kiiunSenList, i)
    {
      var highest1 := At(tenkanHighList, i);
      var lowest1 := At(tenkanLowList, i);
      var highest2 := At(kiiunHighList, i);
      var lowest2 := At(kiiunLowList, i);
      var highest3 := At(senkouHighList, i);
      var lowest3 := At(senkouLowList, i);

      var prevTenkanSen := Last(tenkanSenList);
      var tenkanSen := Midpoint(highest1, lowest1);
      var prevKiiunSen := Last(kiiunSenList);
      var kiiunSen := Midpoint(highest2, lowest2);
      var senkouSpanA := Midpoint(tenkanSen, kiiunSen);
      var senkouSpanB := Midpoint(highest3, lowest3);

      MidpointSeriesAt(tenkanHighList, tenkanLowList, stockData.Count, i);
      MidpointSeriesAt(kiiunHighList, kiiunLowList, stockData.Count, i);
      MidpointSeriesStep(tenkanAll, kiiunAll, senkouSpanAList, i);
      MidpointSeriesStep(tenkanHighList, tenkanLowList, tenkanSenList, i);
      MidpointSeriesStep(kiiunHighList, kiiunLowList, kiiunSenList, i);
      MidpointSeriesStep(senkouHighList, senkouLowList, senkouSpanBList, i);
      CrossSignalsAppend(compare, tenkanSenList, kiiunSenList, tenkanSen, kiiunSen, i);

      tenkanSenList := tenkanSenList + [tenkanSen];
      kiiunSenList := kiiunSenList + [kiiunSen];
      senkouSpanAList := senkouSpanAList + [senkouSpanA];
      senkouSpanBList := senkouSpanBList + [senkouSpanB];

      var signal := CrossSignal(compare, tenkanSen, prevTenkanSen, kiiunSen, prevKiiunSen);
      signalsList := signalsList + [signal];
    }

    stockData.OutputValues := map["TenkanSen" := tenkanSenList, "KiiunSen" := kiiunSenList,
                                  "SenkouSpanA" := senkouSpanAList, "SenkouSpanB" := senkouSpanBList];
    stockData.SignalsList := signalsList;
    stockData.CustomValuesList := [];
    stockData.IndicatorName := Indicator.IchimokuCloud;
  }

  // ===========================================================================
  // Alligator (Calculations/Oscillator.cs:1097-1140)

  /** `i >= offset ? list.ElementAtOrDefault(i - offset) : 0`. */
  function Displaced(list: seq<real>, offset: int, k: nat): real {
    if k >= offset then At(list, k - offset) else 0.0
  }

  function DisplacedSeries(list: seq<real>, offset: int, n: nat): (r: seq<real>)
    ensures |r| == n
  {
    Tabulate((k: nat) => Displaced(list, offset, k), n)
  }

  lemma DisplacedSeriesStep(list: seq<real>, offset: int, d: seq<real>, n: nat)
    requires d == DisplacedSeries(list, offset, n)
    ensures DisplacedSeries(list, offset, n + 1) == d + [Displaced(list, offset, n)]
  {
    TabulateStep((k: nat) => Displaced(list, offset, k), n);
  }

  /** `n` zeros. */
  function Zeros(n: nat): (r: seq<real>)
    ensures |r| == n && forall k :: 0 <= k < n ==> r[k] == 0.0
  {
    seq(n, _ => 0.0)
  }

  /** A displaced line is the moving average shifted `offset` bars to the
      right: the first `offset` bars are 0 and bar k is the average's bar
      k - offset (0 past its end), cut to n bars. */
  lemma DisplacedIsShift(list: seq<real>, offset: int, n: nat)
    requires 0 <= offset
    ensures var z := MinInt(offset, n);
            DisplacedSeries(list, offset, n) == Zeros(z) + Padded(list, n - z)
  {
    var z := MinInt(offset, n);
    var d, e := DisplacedSeries(list, offset, n), Zeros(z) + Padded(list, n - z);
    forall k | 0 <= k < n
      ensures d[k] == e[k]
    {
      TabulateAt((j: nat) => Displaced(list, offset, j), n, k);
      if k >= z {
        PaddedAt(list, n - z, k - z);
      }
    }
  }

  /** The three lines Alligator writes, under the keys it writes them. */
  function AlligatorOutputs(inp: Inputs, ma: MovingAverage, jawLength: int, jawOffset: int, teethLength: int,
                            teethOffset: int, lipsLength: int, lipsOffset: int, n: nat): map<string, seq<real>>
  {
    map["Lips" := DisplacedSeries(ma(lipsLength, inp.input), lipsOffset, n),
        "Teeth" := DisplacedSeries(ma(teethLength, inp.input), teethOffset, n),
        "Jaws" := DisplacedSeries(ma(jawLength, inp.input), jawOffset, n)]
  }

  method CalculateAlligatorIndex(stockData: StockData, inp: Inputs, ma: MovingAverage, band: BandClassifier,
                                 jawLength: int, jawOffset: int, teethLength: int, teethOffset: int,
                                 lipsLength: int, lipsOffset: int)
    modifies stockData
    ensures var n := stockData.Count;
            var lips := DisplacedSeries(ma(lipsLength, inp.input), lipsOffset, n);
            var teeth := DisplacedSeries(ma(teethLength, inp.input), teethOffset, n);
            var jaw := DisplacedSeries(ma(jawLength, inp.input), jawOffset, n);
            && stockData.OutputValues == AlligatorOutputs(inp, ma, jawLength, jawOffset, teethLength, teethOffset,
                                                          lipsLength, lipsOffset, n)
            && stockData.SignalsList == BandSignals(band, lips, jaw, teeth, n)
            && stockData.CustomValuesList == []
            && stockData.IndicatorName == Indicator.AlligatorIndex
  {
    var displacedJawList: seq<real> := [];
    var displacedTeethList: seq<real> := [];
    var displacedLipsList: seq<real> := [];
    var signalsList: seq<Signal> := [];
    var jawList := ma(jawLength, inp.input);
    var teethList := ma(teethLength, inp.input);
    var lipsList := ma(lipsLength, inp.input);
    for i := 0 to stockData.Count
      invariant displacedJawList == DisplacedSeries(jawList, jawOffset, i)
      invariant displacedTeethList == DisplacedSeries(teethList, teethOffset, i)
      invariant displacedLipsList == DisplacedSeries(lipsList, lipsOffset, i)
      invariant signalsList == BandSignals(band, displacedLipsList, displacedJawList, displacedTeethList, i)
    {
      var prevJaw := Last(displacedJawList);
      var displacedJaw := if i >= jawOffset then At(jawList, i - jawOffset) else 0.0;
      var prevTeeth := Last(displacedTeethList);
      var displacedTeeth := if i >= teethOffset then At(teethList, i - teethOffset) else 0.0;
      var prevLips := Last(displacedLipsList);
      var displacedLips := if i >= lipsOffset then At(lipsList, i - lipsOffset) else 0.0;

      DisplacedSeriesStep(jawList, jawOffset, displacedJawList, i);
      DisplacedSeriesStep(teethList, teethOffset, displacedTeethList, i);
      DisplacedSeriesStep(lipsList, lipsOffset, displacedLipsList, i);
      BandSignalsAppend(band, displacedLipsList, displacedJawList, displacedTeethList,
                        displacedLips, displacedJaw, displacedTeeth, i);
      displacedJawList := displacedJawList + [displacedJaw];
      displacedTeethList := displacedTeethList + [displacedTeeth];
      displacedLipsList := displacedLipsList + [displacedLips];

      var signal := BandSignal(band, displacedLips, prevLips, displacedJaw, prevJaw, displacedTeeth, prevTeeth);
      signalsList := signalsList + [signal];
    }

    stockData.OutputValues := map["Lips" := displacedLipsList, "Teeth" := displacedTeethList, "Jaws" := displacedJawList];
    stockData.SignalsList := signalsList;
    stockData.CustomValuesList := [];
    stockData.IndicatorName := Indicator.AlligatorIndex;
  }

  // ===========================================================================
  // Gator Oscillator (Calculations/Oscillator.cs:1155-1196)

  /** Upper bars: `|jaw - teeth|` for every bar. */
  function GatorTopSeries(jaw: seq<real>, teeth: seq<real>, n: nat): (r: seq<real>)
    ensures |r| == n
  {
    Tabulate((k: nat) => Abs(At(jaw, k) - At(teeth, k)), n)
  }

  /** Lower bars: `-|teeth - lips|` for every bar. */
  function GatorBottomSeries(teeth: seq<real>, lips: seq<real>, n: nat): (r: seq<real>)
    ensures |r| == n
  {
    Tabulate((k: nat) => -Abs(At(teeth, k) - At(lips, k)), n)
  }

  lemma GatorSeriesStep(jaw: seq<real>, teeth: seq<real>, lips: seq<real>, top: seq<real>, bottom: seq<real>, n: nat)
    requires top == GatorTopSeries(jaw, teeth, n) && bottom == GatorBottomSeries(teeth, lips, n)
    ensures GatorTopSeries(jaw, teeth, n + 1) == top + [Abs(At(jaw, n) - At(teeth, n))]
    ensures GatorBottomSeries(teeth, lips, n + 1) == bottom + [-Abs(At(teeth, n) - At(lips, n))]
  {
    TabulateStep((k: nat) => Abs(At(jaw, k) - At(teeth, k)), n);
    TabulateStep((k: nat) => -Abs(At(teeth, k) - At(lips, k)), n);
  }

  /** The histogram straddles zero: the upper bar is never negative and is 0
      exactly when jaw and teeth meet, the lower bar is never positive and is 0
      exactly when teeth and lips meet; their gap is the total spread of the
      three lines when teeth lie between jaw and lips. */
  lemma GatorBars(jaw: seq<real>, teeth: seq<real>, lips: seq<real>, n: nat, k: nat)
    requires k < n
    ensures var top, bottom := GatorTopSeries(jaw, teeth, n)[k], GatorBottomSeries(teeth, lips, n)[k];
            && top >= 0.0 && (top == 0.0 <==> At(jaw, k) == At(teeth, k))
            && bottom <= 0.0 && (bottom == 0.0 <==> At(teeth, k) == At(lips, k))
            && (At(lips, k) <= At(teeth, k) <= At(jaw, k) ==> top - bottom == At(jaw, k) - At(lips, k))
  {
    TabulateAt((j: nat) => Abs(At(jaw, j) - At(teeth, j)), n, k);
    TabulateAt((j: nat) => -Abs(At(teeth, j) - At(lips, j)), n, k);
  }

  /** The key Gator reads the jaw line under is not one Alligator writes. */
  lemma GatorJawKeyMissing(inp: Inputs, ma: MovingAverage, jawLength: int, jawOffset: int, teethLength: int,
                           teethOffset: int, lipsLength: int, lipsOffset: int, n: nat)
    ensures "Jaw" !in AlligatorOutputs(inp, ma, jawLength, jawOffset, teethLength, teethOffset, lipsLength, lipsOffset, n)
    ensures "Jaws" in AlligatorOutputs(inp, ma, jawLength, jawOffset, teethLength, teethOffset, lipsLength, lipsOffset, n)
  {
    var m := AlligatorOutputs(inp, ma, jawLength, jawOffset, teethLength, teethOffset, lipsLength, lipsOffset, n);
    assert m.Keys == {"Lips", "Teeth", "Jaws"};
    assert "Jaw" != "Lips" && "Jaw" != "Teeth" && "Jaw" != "Jaws";
  }

  /** The Gator loop over the three lines it looked up. */
  method GatorLines(stockData: StockData, compare: CompareClassifier, jawList: seq<real>, teethList: seq<real>,
                    lipsList: seq<real>)
    modifies stockData
    ensures var top := GatorTopSeries(jawList, teethList, stockData.Count);
            var bottom := GatorBottomSeries(teethList, lipsList, stockData.Count);
            && stockData.OutputValues == map["Top" := top, "Bottom" := bottom]
            && stockData.SignalsList == CrossSignals(compare, top, bottom, stockData.Count)
            && stockData.CustomValuesList == []
            && stockData.IndicatorName == Indicator.GatorOscillator
  {
    var topList: seq<real> := [];
    var bottomList: seq<real> := [];
    var signalsList: seq<Signal> := [];
    for i := 0 to stockData.Count
      invariant topList == GatorTopSeries(jawList, teethList, i)
      invariant bottomList == GatorBottomSeries(teethList, lipsList, i)
      invariant signalsList == CrossSignals(compare, topList, bottomList, i)
    {
      var jaw := At(jawList, i);
      var teeth := At(teethList, i);
      var lips := At(lipsList, i);
      var prevTop := Last(topList);
      var top := Abs(jaw - teeth);
      var prevBottom := Last(bottomList);
      var bottom := -Abs(teeth - lips);

      GatorSeriesStep(jawList, teethList, lipsList, topList, bottomList, i);
      CrossSignalsAppend(compare, topList, bottomList, top, bottom, i);
      topList := topList + [top];
      bottomList := bottomList + [bottom];

      var signal := CrossSignal(compare, top, prevTop, bottom, prevBottom);
      signalsList := signalsList + [signal];
    }

    stockData.OutputValues := map["Top" := topList, "Bottom" := bottomList];
    stockData.SignalsList := signalsList;
    stockData.CustomValuesList := [];
    stockData.IndicatorName := Indicator.GatorOscillator;
  }

  /** The Gator body with the key of the jaw line as a parameter: it runs
      Alligator on the same context, looks the jaw line up under `jawKey` (a
      missing key raises `KeyNotFoundException`, leaving Alligator's results in
      the context) and then computes the two histogram lines. */
  method GatorOscillatorWithJawKey(stockData: StockData, inp: Inputs, ma: MovingAverage, band: BandClassifier,
                                   compare: CompareClassifier, jawKey: string,
                                   jawLength: int, jawOffset: int, teethLength: int, teethOffset: int,
                                   lipsLength: int, lipsOffset: int)
    returns (outcome: Outcome)
    modifies stockData
    ensures var n := stockData.Count;
            var alligator := AlligatorOutputs(inp, ma, jawLength, jawOffset, teethLength, teethOffset,
                                              lipsLength, lipsOffset, n);
            && outcome == (if jawKey in alligator then Pass else Fail(KeyNotFound(jawKey)))
            && (jawKey !in alligator ==>
                  && stockData.OutputValues == alligator
                  && stockData.SignalsList == BandSignals(band, alligator["Lips"], alligator["Jaws"], alligator["Teeth"], n)
                  && stockData.CustomValuesList == []
                  && stockData.IndicatorName == Indicator.AlligatorIndex)
            && (jawKey in alligator ==>
                  var top := GatorTopSeries(alligator[jawKey], alligator["Teeth"], n);
                  var bottom := GatorBottomSeries(alligator["Teeth"], alligator["Lips"], n);
                  && stockData.OutputValues == map["Top" := top, "Bottom" := bottom]
                  && stockData.SignalsList == CrossSignals(compare, top, bottom, n)
                  && stockData.CustomValuesList == []
                  && stockData.IndicatorName == Indicator.GatorOscillator)
  {
    CalculateAlligatorIndex(stockData, inp, ma, band, jawLength, jawOffset, teethLength, teethOffset, lipsLength, lipsOffset);
    var alligatorList := stockData.OutputValues;
    if jawKey !in alligatorList {
      return Fail(KeyNotFound(jawKey));
    }
    GatorLines(stockData, compare, alligatorList[jawKey], alligatorList["Teeth"], alligatorList["Lips"]);
    outcome := Pass;
  }

  /** As written: Gator reads the jaw line under `"Jaw"`, which Alligator never
      writes, so every call fails with `KeyNotFoundException` and leaves
      Alligator's results in the context. */
  method CalculateGatorOscillator(stockData: StockData, inp: Inputs, ma: MovingAverage, band: BandClassifier,
                                  compare: CompareClassifier, jawLength: int, jawOffset: int, teethLength: int,
                                  teethOffset: int, lipsLength: int, lipsOffset: int)
    returns (outcome: Outcome)
    modifies stockData
    ensures outcome == Fail(KeyNotFound("Jaw"))
    ensures stockData.OutputValues == AlligatorOutputs(inp, ma, jawLength, jawOffset, teethLength, teethOffset,
                                                       lipsLength, lipsOffset, stockData.Count)
    ensures var n := stockData.Count;
            var alligator := AlligatorOutputs(inp, ma, jawLength, jawOffset, teethLength, teethOffset,
                                              lipsLength, lipsOffset, n);
            stockData.SignalsList == BandSignals(band, alligator["Lips"], alligator["Jaws"], alligator["Teeth"], n)
    ensures stockData.CustomValuesList == []
    ensures stockData.IndicatorName == Indicator.AlligatorIndex
  {
    GatorJawKeyMissing(inp, ma, jawLength, jawOffset, teethLength, teethOffset, lipsLength, lipsOffset, stockData.Count);
    outcome := GatorOscillatorWithJawKey(stockData, inp, ma, band, compare, "Jaw",
                                         jawLength, jawOffset, teethLength, teethOffset, lipsLength, lipsOffset);
  }

  /** Corrected: the jaw line read under `"Jaws"`, the key Alligator writes. */
  method CalculateGatorOscillatorCorrected(stockData: StockData, inp: Inputs, ma: MovingAverage, band: BandClassifier,
                                           compare: CompareClassifier, jawLength: int, jawOffset: int,
                                           teethLength: int, teethOffset: int, lipsLength: int, lipsOffset: int)
    returns (outcome: Outcome)
    modifies stockData
    ensures var n := stockData.Count;
            var jaw := DisplacedSeries(ma(jawLength, inp.input), jawOffset, n);
            var teeth := DisplacedSeries(ma(teethLength, inp.input), teethOffset, n);
            var lips := DisplacedSeries(ma(lipsLength, inp.input), lipsOffset, n);
            var top, bottom := GatorTopSeries(jaw, teeth, n), GatorBottomSeries(teeth, lips, n);
            && outcome == Pass
            && stockData.OutputValues == map["Top" := top, "Bottom" := bottom]
            && stockData.SignalsList == CrossSignals(compare, top, bottom, n)
            && stockData.CustomValuesList == []
            && stockData.IndicatorName == Indicator.GatorOscillator
  {
    GatorJawKeyMissing(inp, ma, jawLength, jawOffset, teethLength, teethOffset, lipsLength, lipsOffset, stockData.Count);
    outcome := GatorOscillatorWithJawKey(stockData, inp, ma, band, compare, "Jaws",
                                         jawLength, jawOffset, teethLength, teethOffset, lipsLength, lipsOffset);
  }

  // ===========================================================================
  // SuperTrend (Calculations/Oscillator.cs:1328-1377)
  //
  // Each of the four lists is its own series. The stops and the direction
  // carry a `corrected` flag: `false` is the source; `true` applies the two
  // corrections listed among the findings (the direction starts at 1 and the
  // short stop trails with `Min`).

  /** `prevValue > prevLongStop ? Math.Max(tempLongStop, prevLongStop) : tempLongStop`. */
  function LongStop(prevValue: real, prevLongStop: real, tempLongStop: real): real {
    if prevValue > prevLongStop then Max(tempLongStop, prevLongStop) else tempLongStop
  }

  /** As written: `prevValue < prevShortStop ? Math.Max(tempShortStop, prevShortStop) : tempShortStop`;
      corrected: the same with `Math.Min`. */
  function ShortStop(corrected: bool, prevValue: real, prevShortStop: real, tempShortStop: real): real {
    if prevValue < prevShortStop then (if corrected then Min(tempShortStop, prevShortStop) else Max(tempShortStop, prevShortStop))
    else tempShortStop
  }

  /** `prevDir == -1 && value > prevShortStop ? 1 : prevDir == 1 && value < prevLongStop ? -1 : prevDir`. */
  function Direction(prevDir: real, currentValue: real, prevShortStop: real, prevLongStop: real): real {
    if prevDir == -1.0 && currentValue > prevShortStop then 1.0
    else if prevDir == 1.0 && currentValue < prevLongStop then -1.0
    else prevDir
  }

  /** `dir > 0 ? longStop : shortStop`. */
  function TrendLine(dir: real, longStop: real, shortStop: real): real {
    if dir > 0.0 then longStop else shortStop
  }

  /** `atrMult * currentAtr`: the band's distance from the price. */
  function AtrOffset(atrMult: real, currentAtr: real): real { atrMult * currentAtr }

  /** Bar k's long stop from the previous one; `atr` is the average true range
      series and `atrMult` its multiplier. */
  function LongStopAt(inp: Inputs, atr: seq<real>, atrMult: real, prevLongStop: real, k: nat): real {
    LongStop(At(inp.input, k - 1), prevLongStop, At(inp.input, k) - AtrOffset(atrMult, At(atr, k)))
  }

  function ShortStopAt(inp: Inputs, atr: seq<real>, atrMult: real, corrected: bool, prevShortStop: real, k: nat): real {
    ShortStop(corrected, At(inp.input, k - 1), prevShortStop, At(inp.input, k) + AtrOffset(atrMult, At(atr, k)))
  }

  function LongStopSeries(inp: Inputs, atr: seq<real>, atrMult: real, n: nat): (r: seq<real>)
    ensures |r| == n
  {
    Scan((prev: real, k: nat) => LongStopAt(inp, atr, atrMult, prev, k), n)
  }

  function ShortStopSeries(inp: Inputs, atr: seq<real>, atrMult: real, corrected: bool, n: nat): (r: seq<real>)
    ensures |r| == n
  {
    Scan((prev: real, k: nat) => ShortStopAt(inp, atr, atrMult, corrected, prev, k), n)
  }

  /** Bar k's direction from the previous one (the default 0 on bar 0, or 1
      when corrected) and the stops of bar k - 1. */
  function DirectionAt(inp: Inputs, atr: seq<real>, atrMult: real, corrected: bool, prevDir: real, k: nat): real {
    Direction(if corrected && k == 0 then 1.0 else prevDir, At(inp.input, k),
              Last(ShortStopSeries(inp, atr, atrMult, corrected, k)), Last(LongStopSeries(inp, atr, atrMult, k)))
  }

  function DirectionSeries(inp: Inputs, atr: seq<real>, atrMult: real, corrected: bool, n: nat): (r: seq<real>)
    ensures |r| == n
  {
    Scan((prev: real, k: nat) => DirectionAt(inp, atr, atrMult, corrected, prev, k), n)
  }

  /** Bar k's trend line from that bar's direction and stops. */
  function TrendAt(inp: Inputs, atr: seq<real>, atrMult: real, corrected: bool, k: nat): real {
    TrendLine(Last(DirectionSeries(inp, atr, atrMult, corrected, k + 1)), Last(LongStopSeries(inp, atr, atrMult, k + 1)),
              Last(ShortStopSeries(inp, atr, atrMult, corrected, k + 1)))
  }

  function TrendSeries(inp: Inputs, atr: seq<real>, atrMult: real, corrected: bool, n: nat): (r: seq<real>)
    ensures |r| == n
  {
    Tabulate((k: nat) => TrendAt(inp, atr, atrMult, corrected, k), n)
  }

  lemma LongStopSeriesStep(inp: Inputs, atr: seq<real>, atrMult: real, longStops: seq<real>, n: nat)
    requires longStops == LongStopSeries(inp, atr, atrMult, n)
    ensures LongStopSeries(inp, atr, atrMult, n + 1) == longStops + [LongStopAt(inp, atr, atrMult, Last(longStops), n)]
  {
    ScanStep((prev: real, k: nat) => LongStopAt(inp, atr, atrMult, prev, k), n);
  }

  lemma ShortStopSeriesStep(inp: Inputs, atr: seq<real>, atrMult: real, corrected: bool, shortStops: seq<real>, n: nat)
    requires shortStops == ShortStopSeries(inp, atr, atrMult, corrected, n)
    ensures ShortStopSeries(inp, atr, atrMult, corrected, n + 1)
         == shortStops + [ShortStopAt(inp, atr, atrMult, corrected, Last(shortStops), n)]
  {
    ScanStep((prev: real, k: nat) => ShortStopAt(inp, atr, atrMult, corrected, prev, k), n);
  }

  lemma DirectionSeriesStep(inp: Inputs, atr: seq<real>, atrMult: real, corrected: bool, dirs: seq<real>, n: nat)
    requires dirs == DirectionSeries(inp, atr, atrMult, corrected, n)
    ensures DirectionSeries(inp, atr, atrMult, corrected, n + 1)
         == dirs + [DirectionAt(inp, atr, atrMult, corrected, Last(dirs), n)]
  {
    ScanStep((prev: real, k: nat) => DirectionAt(inp, atr, atrMult, corrected, prev, k), n);
  }

  lemma TrendSeriesStep(inp: Inputs, atr: seq<real>, atrMult: real, corrected: bool, trends: seq<real>, n: nat)
    requires trends == TrendSeries(inp, atr, atrMult, corrected, n)
    ensures TrendSeries(inp, atr, atrMult, corrected, n + 1) == trends + [TrendAt(inp, atr, atrMult, corrected, n)]
  {
    TabulateStep((k: nat) => TrendAt(inp, atr, atrMult, corrected, k), n);
  }

  /** Bar k of every list, read back from the lists after n > k bars: the
      stop rules with the previous bar's stops, the direction rule and the
      trend line. */
  lemma SuperTrendBarAt(inp: Inputs, atr: seq<real>, atrMult: real, corrected: bool, n: nat, k: nat)
    requires k < n
    ensures var longStops, shortStops := LongStopSeries(inp, atr, atrMult, n), ShortStopSeries(inp, atr, atrMult, corrected, n);
            var dirs := DirectionSeries(inp, atr, atrMult, corrected, n);
            && longStops[k] == LongStopAt(inp, atr, atrMult, At(longStops, k - 1), k)
            && shortStops[k] == ShortStopAt(inp, atr, atrMult, corrected, At(shortStops, k - 1), k)
            && dirs[k] == Direction(if corrected && k == 0 then 1.0 else At(dirs, k - 1), At(inp.input, k),
                                    At(shortStops, k - 1), At(longStops, k - 1))
            && TrendSeries(inp, atr, atrMult, corrected, n)[k] == TrendLine(dirs[k], longStops[k], shortStops[k])
  {
    var longStep := (prev: real, j: nat) => LongStopAt(inp, atr, atrMult, prev, j);
    var shortStep := (prev: real, j: nat) => ShortStopAt(inp, atr, atrMult, corrected, prev, j);
    var dirStep := (prev: real, j: nat) => DirectionAt(inp, atr, atrMult, corrected, prev, j);
    ScanAt(longStep, n, k);
    ScanAt(shortStep, n, k);
    ScanAt(dirStep, n, k);
    ScanPrefix(longStep, k, n);
    ScanPrefix(shortStep, k, n);
    ScanPrefix(longStep, k + 1, n);
    ScanPrefix(shortStep, k + 1, n);
    ScanPrefix(dirStep, k + 1, n);
    TabulateAt((j: nat) => TrendAt(inp, atr, atrMult, corrected, j), n, k);
  }

  /** As written, the direction starts at the default 0 and only ever flips
      from -1 or from 1, so it is 0 on every bar and the trend line is always
      the short stop. */
  lemma {:induction false} SuperTrendDirStaysZero(inp: Inputs, atr: seq<real>, atrMult: real, n: nat, k: nat)
    requires k < n
    ensures DirectionSeries(inp, atr, atrMult, false, n)[k] == 0.0
    ensures TrendSeries(inp, atr, atrMult, false, n)[k] == ShortStopSeries(inp, atr, atrMult, false, n)[k]
    decreases k
  {
    SuperTrendBarAt(inp, atr, atrMult, false, n, k);
    if k > 0 {
      SuperTrendDirStaysZero(inp, atr, atrMult, n, k - 1);
    }
  }

  /** The long stop never falls while the previous value stays above it. */
  lemma SuperTrendLongStopRatchets(inp: Inputs, atr: seq<real>, atrMult: real, n: nat, k: nat)
    requires k < n
    ensures var longStops := LongStopSeries(inp, atr, atrMult, n);
            At(inp.input, k - 1) > At(longStops, k - 1) ==> longStops[k] >= At(longStops, k - 1)
  {
    SuperTrendBarAt(inp, atr, atrMult, false, n, k);
  }

  /** As written, while the previous value stays below the short stop the
      short stop never falls either: it ratchets away from the price instead
      of trailing it down. */
  lemma SuperTrendShortStopNeverFalls(inp: Inputs, atr: seq<real>, atrMult: real, n: nat, k: nat)
    requires k < n
    ensures var shortStops := ShortStopSeries(inp, atr, atrMult, false, n);
            At(inp.input, k - 1) < At(shortStops, k - 1) ==> shortStops[k] >= At(shortStops, k - 1)
  {
    SuperTrendBarAt(inp, atr, atrMult, false, n, k);
  }

  /** Two bars where the price falls and the true range stays 1 (multiplier
      3): the written short stop stays at 13 on bar 1 where the corrected
      one trails down to that bar's band 9 + 3 = 12. */
  lemma SuperTrendShortStopExample()
    ensures ShortStopSeries(Inputs([10.0, 9.0], [], [], [], []), [1.0, 1.0], 3.0, false, 2) == [13.0, 13.0]
    ensures ShortStopSeries(Inputs([10.0, 9.0], [], [], [], []), [1.0, 1.0], 3.0, true, 2) == [13.0, 12.0]
  {
    var inp := Inputs([10.0, 9.0], [], [], [], []);
    ShortStopSeriesStep(inp, [1.0, 1.0], 3.0, false, [], 0);
    ShortStopSeriesStep(inp, [1.0, 1.0], 3.0, false, [13.0], 1);
    ShortStopSeriesStep(inp, [1.0, 1.0], 3.0, true, [], 0);
    ShortStopSeriesStep(inp, [1.0, 1.0], 3.0, true, [13.0], 1);
  }

  /** Corrected: the short stop never rises while the previous value stays below it. */
  lemma SuperTrendCorrectedShortStopTrails(inp: Inputs, atr: seq<real>, atrMult: real, n: nat, k: nat)
    requires k < n
    ensures var shortStops := ShortStopSeries(inp, atr, atrMult, true, n);
            At(inp.input, k - 1) < At(shortStops, k - 1) ==> shortStops[k] <= At(shortStops, k - 1)
  {
    SuperTrendBarAt(inp, atr, atrMult, true, n, k);
  }

  /** Corrected: starting from 1, the direction is always 1 or -1, so the
      trend line is the long stop in an up-trend and the short stop in a
      down-trend. */
  lemma {:induction false} SuperTrendCorrectedDirIsSide(inp: Inputs, atr: seq<real>, atrMult: real, n: nat, k: nat)
    requires k < n
    ensures var dir := DirectionSeries(inp, atr, atrMult, true, n)[k];
            && (dir == 1.0 || dir == -1.0)
            && TrendSeries(inp, atr, atrMult, true, n)[k]
               == (if dir == 1.0 then LongStopSeries(inp, atr, atrMult, n)[k] else ShortStopSeries(inp, atr, atrMult, true, n)[k])
    decreases k
  {
    SuperTrendBarAt(inp, atr, atrMult, true, n, k);
    if k > 0 {
      SuperTrendCorrectedDirIsSide(inp, atr, atrMult, n, k - 1);
    }
  }

  /** What the SuperTrend loop holds after bars 0 .. i - 1. */
  predicate SuperTrendLoopState(inp: Inputs, atr: seq<real>, atrMult: real, corrected: bool, compare: CompareClassifier,
                                i: nat, longStops: seq<real>, shortStops: seq<real>, dirs: seq<real>, trends: seq<real>,
                                signals: seq<Signal>)
  {
    && longStops == LongStopSeries(inp, atr, atrMult, i)
    && shortStops == ShortStopSeries(inp, atr, atrMult, corrected, i)
    && dirs == DirectionSeries(inp, atr, atrMult, corrected, i)
    && trends == TrendSeries(inp, atr, atrMult, corrected, i)
    && signals == CrossSignals(compare, inp.input, trends, i)
  }

  /** One bar of the SuperTrend loop, with the values it computes. */
  lemma SuperTrendLoopStep(inp: Inputs, atr: seq<real>, atrMult: real, corrected: bool, compare: CompareClassifier, i: nat,
                           longStops: seq<real>, shortStops: seq<real>, dirs: seq<real>, trends: seq<real>,
                           signals: seq<Signal>, longStop: real, shortStop: real, dir: real, trend: real, signal: Signal)
    requires SuperTrendLoopState(inp, atr, atrMult, corrected, compare, i, longStops, shortStops, dirs, trends, signals)
    requires longStop == LongStop(At(inp.input, i - 1), Last(longStops), At(inp.input, i) - AtrOffset(atrMult, At(atr, i)))
    requires shortStop == ShortStop(corrected, At(inp.input, i - 1), Last(shortStops),
                                    At(inp.input, i) + AtrOffset(atrMult, At(atr, i)))
    requires dir == Direction(if corrected && i == 0 then 1.0 else Last(dirs), At(inp.input, i), Last(shortStops),
                              Last(longStops))
    requires trend == TrendLine(dir, longStop, shortStop)
    requires signal == CrossSignal(compare, At(inp.input, i), At(inp.input, i - 1), trend, Last(trends))
    ensures SuperTrendLoopState(inp, atr, atrMult, corrected, compare, i + 1, longStops + [longStop],
                                shortStops + [shortStop], dirs + [dir], trends + [trend], signals + [signal])
  {
    LongStopSeriesStep(inp, atr, atrMult, longStops, i);
    ShortStopSeriesStep(inp, atr, atrMult, corrected, shortStops, i);
    DirectionSeriesStep(inp, atr, atrMult, corrected, dirs, i);
    TrendSeriesStep(inp, atr, atrMult, corrected, trends, i);
    CrossSignalsAppendRight(compare, inp.input, trends, trend, i);
  }

  /** The SuperTrend loop; `corrected` selects the source's short stop and
      direction (`false`) or the trailing ones (`true`). `atr` is the
      `CustomValuesList` of the average-true-range calculation run first. */
  method SuperTrendWith(stockData: StockData, inp: Inputs, atr: seq<real>, compare: CompareClassifier, atrMult: real,
                        corrected: bool)
    modifies stockData
    ensures var trend := TrendSeries(inp, atr, atrMult, corrected, stockData.Count);
            && stockData.OutputValues == map["Trend" := trend]
            && stockData.SignalsList == CrossSignals(compare, inp.input, trend, stockData.Count)
            && stockData.CustomValuesList == trend
            && stockData.IndicatorName == Indicator.SuperTrend
  {
    var longStopList: seq<real> := [];
    var shortStopList: seq<real> := [];
    var dirList: seq<real> := [];
    var trendList: seq<real> := [];
    var signalsList: seq<Signal> := [];
    for i := 0 to stockData.Count
      invariant SuperTrendLoopState(inp, atr, atrMult, corrected, compare, i, longStopList, shortStopList, dirList,
                                    trendList, signalsList)
    {
      var currentValue := At(inp.input, i);
      var currentAtr := At(atr, i);
      var prevValue := At(inp.input, i - 1);
      var atrValue := AtrOffset(atrMult, currentAtr);
      var tempLongStop := currentValue - atrValue;
      var tempShortStop := currentValue + atrValue;

      var prevLongStop := Last(longStopList);
      var longStop := LongStop(prevValue, prevLongStop, tempLongStop);
      var prevShortStop := Last(shortStopList);
      var shortStop := ShortStop(corrected, prevValue, prevShortStop, tempShortStop);
      var prevDir := if corrected && i == 0 then 1.0 else Last(dirList);
      var dir := Direction(prevDir, currentValue, prevShortStop, prevLongStop);
      var prevTrend := Last(trendList);
      var trend := TrendLine(dir, longStop, shortStop);
      var signal := CrossSignal(compare, currentValue, prevValue, trend, prevTrend);
      SuperTrendLoopStep(inp, atr, atrMult, corrected, compare, i, longStopList, shortStopList, dirList, trendList,
                         signalsList, longStop, shortStop, dir, trend, signal);
      longStopList := longStopList + [longStop];
      shortStopList := shortStopList + [shortStop];
      dirList := dirList + [dir];
      trendList := trendList + [trend];
      signalsList := signalsList + [signal];
    }

    stockData.OutputValues := map["Trend" := trendList];
    stockData.SignalsList := signalsList;
    stockData.CustomValuesList := trendList;
    stockData.IndicatorName := Indicator.SuperTrend;
  }

  /** The source's SuperTrend, as written. */
  method CalculateSuperTrend(stockData: StockData, inp: Inputs, atr: seq<real>, compare: CompareClassifier, atrMult: real)
    modifies stockData
    ensures var trend := TrendSeries(inp, atr, atrMult, false, stockData.Count);
            && stockData.OutputValues == map["Trend" := trend]
            && (forall k :: 0 <= k < stockData.Count ==>
                  trend[k] == ShortStopSeries(inp, atr, atrMult, false, stockData.Count)[k])
            && stockData.SignalsList == CrossSignals(compare, inp.input, trend, stockData.Count)
            && stockData.CustomValuesList == trend
            && stockData.IndicatorName == Indicator.SuperTrend
  {
    SuperTrendWith(stockData, inp, atr, compare, atrMult, false);
    forall k | 0 <= k < stockData.Count
      ensures TrendSeries(inp, atr, atrMult, false, stockData.Count)[k]
              == ShortStopSeries(inp, atr, atrMult, false, stockData.Count)[k]
    {
      SuperTrendDirStaysZero(inp, atr, atrMult, stockData.Count, k);
    }
  }

  /** SuperTrend with the direction starting long and the short stop trailing
      down (`Math.Min`): the trend line follows the stop of the current side. */
  method CalculateSuperTrendCorrected(stockData: StockData, inp: Inputs, atr: seq<real>, compare: CompareClassifier,
                                      atrMult: real)
    modifies stockData
    ensures var n := stockData.Count;
            var trend := TrendSeries(inp, atr, atrMult, true, n);
            && stockData.OutputValues == map["Trend" := trend]
            && (forall k :: 0 <= k < n ==>
                  var dir := DirectionSeries(inp, atr, atrMult, true, n)[k];
                  && (dir == 1.0 || dir == -1.0)
                  && trend[k] == (if dir == 1.0 then LongStopSeries(inp, atr, atrMult, n)[k]
                                  else ShortStopSeries(inp, atr, atrMult, true, n)[k]))
            && stockData.SignalsList == CrossSignals(compare, inp.input, trend, n)
            && stockData.CustomValuesList == trend
            && stockData.IndicatorName == Indicator.SuperTrend
  {
    SuperTrendWith(stockData, inp, atr, compare, atrMult, true);
    forall k | 0 <= k < stockData.Count
      ensures var dir := DirectionSeries(inp, atr, atrMult, true, stockData.Count)[k];
              && (dir == 1.0 || dir == -1.0)
              && TrendSeries(inp, atr, atrMult, true, stockData.Count)[k]
                 == (if dir == 1.0 then LongStopSeries(inp, atr, atrMult, stockData.Count)[k]
                     else ShortStopSeries(inp, atr, atrMult, true, stockData.Count)[k])
    {
      SuperTrendCorrectedDirIsSide(inp, atr, atrMult, stockData.Count, k);
    }
  }

  // ===========================================================================
  // Aroon Oscillator (Calculations/Oscillator.cs:1789-1828)

  /** `(decimal)(length - daysSince) / length * 100`; the division raises
      `DivideByZeroException` when `length` is 0. */
  function AroonLine(length: int, daysSince: int): real
    requires length != 0
  {
    (length - daysSince) as real / length as real * 100.0
  }

  /** `i - tempList.LastIndexOf(extreme)` where `tempList` holds the prices of
      bars 0 .. i: the bars since the last bar at that price, or i + 1 when no
      bar has it. */
  function DaysSince(inp: Inputs, extreme: real, i: nat): int {
    i - LastIndexOf(Padded(inp.input, i + 1), extreme)
  }

  /** Bar i: Aroon up minus Aroon down. */
  function AroonValue(inp: Inputs, highest: seq<real>, lowest: seq<real>, length: int, i: nat): real
    requires length != 0
  {
    AroonLine(length, DaysSince(inp, At(highest, i), i)) - AroonLine(length, DaysSince(inp, At(lowest, i), i))
  }

  function AroonSeries(inp: Inputs, highest: seq<real>, lowest: seq<real>, length: int, n: nat): (r: seq<real>)
    requires length != 0
    ensures |r| == n
  {
    Tabulate((k: nat) => AroonValue(inp, highest, lowest, length, k), n)
  }

  lemma AroonSeriesStep(inp: Inputs, highest: seq<real>, lowest: seq<real>, length: int, aroon: seq<real>, n: nat)
    requires length != 0
    requires aroon == AroonSeries(inp, highest, lowest, length, n)
    ensures AroonSeries(inp, highest, lowest, length, n + 1) == aroon + [AroonValue(inp, highest, lowest, length, n)]
  {
    TabulateStep((k: nat) => AroonValue(inp, highest, lowest, length, k), n);
  }

  /** When bar j of the trailing window ending at bar i holds `extreme`, the
      last bar at that price is no earlier than j, so at most i - j and at
      most length - 1 bars have passed since it. */
  lemma DaysSinceWithinWindow(inp: Inputs, extreme: real, length: int, i: nat, j: int)
    requires length >= 1 && i < |inp.input|
    requires WindowStart(i, length) <= j <= i && inp.input[j] == extreme
    ensures 0 <= DaysSince(inp, extreme, i) <= i - j <= length - 1
  {
    var prices := Padded(inp.input, i + 1);
    PaddedAt(inp.input, i + 1, j);
    var last := LastIndexOf(prices, extreme);
    assert prices[j] == extreme;
    assert j <= last;
  }

  /** For 0 <= daysSince <= length - 1 a line lies in (0, 100], and it is
      100 exactly when the extreme is on the current bar. */
  lemma AroonLineRange(length: int, daysSince: int)
    requires 0 <= daysSince <= length - 1
    ensures 0.0 < AroonLine(length, daysSince) <= 100.0
    ensures AroonLine(length, daysSince) == 100.0 <==> daysSince == 0
  {
    var num, den := (length - daysSince) as real, length as real;
    UnitQuotient(num, den);
    QuotientSign(num, den);
    if daysSince != 0 {
      assert num < den;
      assert num / den * den == num;
    }
  }

  /** With the helper's lists the trailing `length`-bar maximum and minimum of
      the prices, both lines lie in (0, 100], so the oscillator lies strictly
      inside (-100, 100); it is non-negative on a bar that sets the window's
      high and non-positive on one that sets its low. */
  lemma AroonSeriesRange(inp: Inputs, highest: seq<real>, lowest: seq<real>, length: int, n: nat, k: nat)
    requires length >= 1 && k < n
    requires k < |inp.input| && k < |highest| && k < |lowest|
    requires highest[k] == SeqMax(Window(inp.input, k, length))
    requires lowest[k] == SeqMin(Window(inp.input, k, length))
    ensures -100.0 < AroonSeries(inp, highest, lowest, length, n)[k] < 100.0
    ensures inp.input[k] == highest[k] ==> AroonSeries(inp, highest, lowest, length, n)[k] >= 0.0
    ensures inp.input[k] == lowest[k] ==> AroonSeries(inp, highest, lowest, length, n)[k] <= 0.0
  {
    TabulateAt((j: nat) => AroonValue(inp, highest, lowest, length, j), n, k);
    WindowMaxAttained(inp.input, k, length);
    var jMax :| WindowStart(k, length) <= jMax <= k && inp.input[jMax] == highest[k];
    WindowMinAttained(inp.input, k, length);
    var jMin :| WindowStart(k, length) <= jMin <= k && inp.input[jMin] == lowest[k];
    DaysSinceWithinWindow(inp, highest[k], length, k, jMax);
    DaysSinceWithinWindow(inp, lowest[k], length, k, jMin);
    AroonLineRange(length, DaysSince(inp, highest[k], k));
    AroonLineRange(length, DaysSince(inp, lowest[k], k));
    if inp.input[k] == highest[k] {
      DaysSinceWithinWindow(inp, highest[k], length, k, k);
    }
    if inp.input[k] == lowest[k] {
      DaysSinceWithinWindow(inp, lowest[k], length, k, k);
    }
  }

  /** What the Aroon loop holds after bars 0 .. i - 1. */
  predicate AroonLoopState(inp: Inputs, highest: seq<real>, lowest: seq<real>, length: int, compare: CompareClassifier,
                           i: nat, prices: seq<real>, aroon: seq<real>, signals: seq<Signal>)
    requires length != 0
  {
    && prices == Padded(inp.input, i)
    && aroon == AroonSeries(inp, highest, lowest, length, i)
    && signals == TrendSignals(compare, aroon, i)
  }

  /** With `prices` the prices of bars 0 .. i - 1, the bars since `extreme`
      are counted on `prices` with bar i's price appended. */
  lemma DaysSinceStep(inp: Inputs, prices: seq<real>, extreme: real, i: nat, index: int)
    requires prices == Padded(inp.input, i)
    requires index == LastIndexOf(prices + [At(inp.input, i)], extreme)
    ensures DaysSince(inp, extreme, i) == i - index
  {
    assert Padded(inp.input, i + 1) == prices + [At(inp.input, i)];
  }

  /** One bar of the Aroon loop, with the values it computes. */
  lemma AroonLoopStep(inp: Inputs, highest: seq<real>, lowest: seq<real>, length: int, compare: CompareClassifier,
                      i: nat, prices: seq<real>, aroon: seq<real>, signals: seq<Signal>,
                      daysSinceMax: int, daysSinceMin: int, value: real, signal: Signal)
    requires length != 0
    requires AroonLoopState(inp, highest, lowest, length, compare, i, prices, aroon, signals)
    requires daysSinceMax == DaysSince(inp, At(highest, i), i) && daysSinceMin == DaysSince(inp, At(lowest, i), i)
    requires value == AroonLine(length, daysSinceMax) - AroonLine(length, daysSinceMin)
    requires signal == compare(value, Last(aroon))
    ensures AroonLoopState(inp, highest, lowest, length, compare, i + 1, prices + [At(inp.input, i)], aroon + [value],
                           signals + [signal])
  {
    assert Padded(inp.input, i + 1) == prices + [At(inp.input, i)];
    AroonSeriesStep(inp, highest, lowest, length, aroon, i);
    TrendSignalsAppend(compare, aroon, value, i);
  }

  /** The per-bar loop of the Aroon Oscillator over the first `count` bars. */
  method AroonLines(inp: Inputs, highestList: seq<real>, lowestList: seq<real>, length: int, compare: CompareClassifier,
                    count: nat)
    returns (aroonOscillatorList: seq<real>, signalsList: seq<Signal>)
    requires length != 0
    ensures aroonOscillatorList == AroonSeries(inp, highestList, lowestList, length, count)
    ensures signalsList == TrendSignals(compare, aroonOscillatorList, count)
  {
    aroonOscillatorList := [];
    signalsList := [];
    var tempList: seq<real> := [];
    for i := 0 to count
      invariant AroonLoopState(inp, highestList, lowestList, length, compare, i, tempList, aroonOscillatorList, signalsList)
    {
      ghost var temp0 := tempList;
      var currentPrice := At(inp.input, i);
      tempList := tempList + [currentPrice];

      var maxPrice := At(highestList, i);
      var maxIndex := LastIndexOf(tempList, maxPrice);
      var minPrice := At(lowestList, i);
      var minIndex := LastIndexOf(tempList, minPrice);
      var daysSinceMax := i - maxIndex;
      var daysSinceMin := i - minIndex;
      DaysSinceStep(inp, temp0, maxPrice, i, maxIndex);
      DaysSinceStep(inp, temp0, minPrice, i, minIndex);
      var aroonUp := AroonLine(length, daysSinceMax);
      var aroonDown := AroonLine(length, daysSinceMin);

      var prevAroonOscillator := Last(aroonOscillatorList);
      var aroonOscillator := aroonUp - aroonDown;
      var signal := compare(aroonOscillator, prevAroonOscillator);
      AroonLoopStep(inp, highestList, lowestList, length, compare, i, temp0, aroonOscillatorList, signalsList,
                    daysSinceMax, daysSinceMin, aroonOscillator, signal);
      aroonOscillatorList := aroonOscillatorList + [aroonOscillator];
      signalsList := signalsList + [signal];
    }
  }

  /** A `length` of 0 raises on the first bar, before the context is touched. */
  method CalculateAroonOscillator(stockData: StockData, inp: Inputs, maxMin: MaxAndMinOfOne, compare: CompareClassifier,
                                  length: int)
    returns (outcome: Outcome)
    modifies stockData
    ensures outcome == (if length == 0 && stockData.Count > 0 then Fail(DivideByZero) else Pass)
    ensures outcome.Fail? ==> unchanged(stockData)
    ensures outcome.Pass? && length != 0 ==>
              var extremes := maxMin(inp.input, length);
              var aroon := AroonSeries(inp, extremes.0, extremes.1, length, stockData.Count);
              && stockData.OutputValues == map["Aroon" := aroon]
              && stockData.SignalsList == TrendSignals(compare, aroon, stockData.Count)
              && stockData.CustomValuesList == aroon
              && stockData.IndicatorName == Indicator.AroonOscillator
    ensures outcome.Pass? && length == 0 ==>
              && stockData.OutputValues == map["Aroon" := []]
              && stockData.SignalsList == [] && stockData.CustomValuesList == []
              && stockData.IndicatorName == Indicator.AroonOscillator
  {
    var extremes := maxMin(inp.input, length);
    var highestList, lowestList := extremes.0, extremes.1;
    if length == 0 {
      if stockData.Count > 0 {
        return Fail(DivideByZero);
      }
      stockData.OutputValues := map["Aroon" := []];
      stockData.SignalsList := [];
      stockData.CustomValuesList := [];
      stockData.IndicatorName := Indicator.AroonOscillator;
      return Pass;
    }

    var aroonOscillatorList, signalsList := AroonLines(inp, highestList, lowestList, length, compare, stockData.Count);
    stockData.OutputValues := map["Aroon" := aroonOscillatorList];
    stockData.SignalsList := signalsList;
    stockData.CustomValuesList := aroonOscillatorList;
    stockData.IndicatorName := Indicator.AroonOscillator;
    outcome := Pass;
  }
}
