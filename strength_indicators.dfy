/** The strength and breadth oscillators of Calculations/Oscillator.cs: the
    Zweig Market Breadth Indicator, the Absolute Strength MTF Indicator, the
    Anchored Momentum, the Accumulative Swing Index and the Absolute Strength
    Index. As elsewhere, each method walks the bars once, appending to local
    lists, and is proved against functions that give those lists after n
    bars; the lemmas say what the lists mean. */
module StrengthIndicators {
  import opened Series
  import opened Signals
  import opened Stock

  // ===========================================================================
  // Zweig Market Breadth Indicator (Calculations/Oscillator.cs:2677-2724)

  /** 1 on a bar that closed above the previous bar, else 0. */
  function AdvanceFlag(value: real, prevValue: real): real {
    if value > prevValue then 1.0 else 0.0
  }

  /** 1 on a bar that closed below the previous bar, else 0. */
  function DeclineFlag(value: real, prevValue: real): real {
    if value < prevValue then 1.0 else 0.0
  }

  function AdvancesSeries(inp: Inputs, n: nat): (r: seq<real>)
    ensures |r| == n
  {
    Tabulate((k: nat) => AdvanceFlag(At(inp.input, k), At(inp.input, k - 1)), n)
  }

  function DeclinesSeries(inp: Inputs, n: nat): (r: seq<real>)
    ensures |r| == n
  {
    Tabulate((k: nat) => DeclineFlag(At(inp.input, k), At(inp.input, k - 1)), n)
  }

  /** The share of advances among the bars that moved, 0 when none moved. */
  function AdvanceShare(advSum: real, decSum: real): real {
    Ratio(advSum, advSum + decSum)
  }

  /** Bar k's share, from the flags of the trailing `length` bars. */
  function AdvanceShareAt(inp: Inputs, length: int, k: nat): real {
    AdvanceShare(Sum(TakeLast(AdvancesSeries(inp, k + 1), length)), Sum(TakeLast(DeclinesSeries(inp, k + 1), length)))
  }

  function AdvanceShareSeries(inp: Inputs, length: int, n: nat): (r: seq<real>)
    ensures |r| == n
  {
    Tabulate((k: nat) => AdvanceShareAt(inp, length, k), n)
  }

  lemma AdvancesStep(inp: Inputs, adv: seq<real>, n: nat)
    requires adv == AdvancesSeries(inp, n)
    ensures AdvancesSeries(inp, n + 1) == adv + [AdvanceFlag(At(inp.input, n), At(inp.input, n - 1))]
  {
    TabulateStep((k: nat) => AdvanceFlag(At(inp.input, k), At(inp.input, k - 1)), n);
  }

  lemma DeclinesStep(inp: Inputs, dec: seq<real>, n: nat)
    requires dec == DeclinesSeries(inp, n)
    ensures DeclinesSeries(inp, n + 1) == dec + [DeclineFlag(At(inp.input, n), At(inp.input, n - 1))]
  {
    TabulateStep((k: nat) => DeclineFlag(At(inp.input, k), At(inp.input, k - 1)), n);
  }

  lemma AdvanceShareStep(inp: Inputs, length: int, share: seq<real>, n: nat)
    requires share == AdvanceShareSeries(inp, length, n)
    ensures AdvanceShareSeries(inp, length, n + 1) == share + [AdvanceShareAt(inp, length, n)]
  {
    TabulateStep((k: nat) => AdvanceShareAt(inp, length, k), n);
  }

  /** Bar k is flagged as an advance exactly when it rose and as a decline
      exactly when it fell; no bar is both. */
  lemma BreadthFlags(inp: Inputs, n: nat, k: nat)
    requires k < n
    ensures AdvancesSeries(inp, n)[k] == 1.0 <==> At(inp.input, k) > At(inp.input, k - 1)
    ensures DeclinesSeries(inp, n)[k] == 1.0 <==> At(inp.input, k) < At(inp.input, k - 1)
    ensures 0.0 <= AdvancesSeries(inp, n)[k] && 0.0 <= DeclinesSeries(inp, n)[k]
    ensures AdvancesSeries(inp, n)[k] + DeclinesSeries(inp, n)[k] <= 1.0
  {
    TabulateAt((j: nat) => AdvanceFlag(At(inp.input, j), At(inp.input, j - 1)), n, k);
    TabulateAt((j: nat) => DeclineFlag(At(inp.input, j), At(inp.input, j - 1)), n, k);
  }

  /** The trailing-window sums of the flags after bar k are non-negative. */
  lemma FlagSumsNonNegative(inp: Inputs, length: int, k: nat)
    ensures 0.0 <= Sum(TakeLast(AdvancesSeries(inp, k + 1), length))
    ensures 0.0 <= Sum(TakeLast(DeclinesSeries(inp, k + 1), length))
  {
    var adv, dec := AdvancesSeries(inp, k + 1), DeclinesSeries(inp, k + 1);
    forall j | 0 <= j < k + 1
      ensures 0.0 <= adv[j] && 0.0 <= dec[j]
    {
      BreadthFlags(inp, k + 1, j);
    }
    TakeLastIsSuffix(adv, length);
    TakeLastIsSuffix(dec, length);
    var ta, td := TakeLast(adv, length), TakeLast(dec, length);
    assert forall j :: 0 <= j < |ta| ==> ta[j] == adv[k + 1 - |ta| + j];
    assert forall j :: 0 <= j < |td| ==> td[j] == dec[k + 1 - |td| + j];
    SumNonNegative(ta);
    SumNonNegative(td);
  }

  /** Bar k's share lies in [0, 1]; with `length >= 1` it is the advances of
      the bars max(0, k - length + 1) .. k over the bars among them that moved. */
  lemma AdvanceShareRange(inp: Inputs, length: int, n: nat, k: nat)
    requires k < n
    ensures 0.0 <= AdvanceShareSeries(inp, length, n)[k] <= 1.0
    ensures length >= 1 ==>
              var adv, dec := AdvancesSeries(inp, k + 1), DeclinesSeries(inp, k + 1);
              AdvanceShareSeries(inp, length, n)[k]
              == AdvanceShare(SumRange(adv, WindowStart(k, length), k + 1), SumRange(dec, WindowStart(k, length), k + 1))
  {
    TabulateAt((j: nat) => AdvanceShareAt(inp, length, j), n, k);
    var adv, dec := AdvancesSeries(inp, k + 1), DeclinesSeries(inp, k + 1);
    var a, d := Sum(TakeLast(adv, length)), Sum(TakeLast(dec, length));
    FlagSumsNonNegative(inp, length, k);
    RatioInUnitInterval(a, a + d);
    if length >= 1 {
      TakeLastSumIsWindowSum(adv, k, length);
      TakeLastSumIsWindowSum(dec, k, length);
    }
  }

  method CalculateZweigMarketBreadthIndicator(stockData: StockData, inp: Inputs, ma: MovingAverage, rsi: RsiClassifier,
                                              length: int)
    modifies stockData
    ensures var zmbti := ma(length, AdvanceShareSeries(inp, length, stockData.Count));
            && stockData.OutputValues == map["Zmbti" := zmbti]
            && stockData.SignalsList == RsiSignals(rsi, zmbti, 0.615, 0.4, stockData.Count)
            && stockData.CustomValuesList == zmbti
            && stockData.IndicatorName == Indicator.ZweigMarketBreadthIndicator
  {
    var advDiffList: seq<real> := [];
    var advancesList: seq<real> := [];
    var declinesList: seq<real> := [];
    for i := 0 to stockData.Count
      invariant advancesList == AdvancesSeries(inp, i)
      invariant declinesList == DeclinesSeries(inp, i)
      invariant advDiffList == AdvanceShareSeries(inp, length, i)
    {
      var currentValue := At(inp.input, i);
      var prevValue := At(inp.input, i - 1);

      var advance := AdvanceFlag(currentValue, prevValue);
      AdvancesStep(inp, advancesList, i);
      advancesList := advancesList + [advance];

      var decline := DeclineFlag(currentValue, prevValue);
      DeclinesStep(inp, declinesList, i);
      declinesList := declinesList + [decline];

      var advSum := Sum(TakeLast(advancesList, length));
      var decSum := Sum(TakeLast(declinesList, length));
      var advDiff := AdvanceShare(advSum, decSum);
      AdvanceShareStep(inp, length, advDiffList, i);
      advDiffList := advDiffList + [advDiff];
    }

    var zmbtiList := ma(length, advDiffList);
    var signalsList: seq<Signal> := [];
    for i := 0 to stockData.Count
      invariant signalsList == RsiSignals(rsi, zmbtiList, 0.615, 0.4, i)
    {
      var prevZmbti1 := At(zmbtiList, i - 1);
      var prevZmbti2 := At(zmbtiList, i - 2);
      var zmbti := At(zmbtiList, i);
      var signal := RsiSignal(rsi, zmbti, prevZmbti1, prevZmbti2, 0.615, 0.4);
      signalsList := signalsList + [signal];
    }

    stockData.OutputValues := map["Zmbti" := zmbtiList];
    stockData.SignalsList := signalsList;
    stockData.CustomValuesList := zmbtiList;
    stockData.IndicatorName := Indicator.ZweigMarketBreadthIndicator;
  }

  // ===========================================================================
  // Absolute Strength MTF Indicator (Calculations/Oscillator.cs:2220-2305)

  /** `0.5 * (|x| + x)`: x when positive, else 0. */
  function PositivePart(x: real): real {
    0.5 * (Abs(x) + x)
  }

  /** `0.5 * (|x| - x)`: -x when negative, else 0. */
  function NegativePart(x: real): real {
    0.5 * (Abs(x) - x)
  }

  /** The split of a change into its bullish and bearish parts: both are
      non-negative, at least one is 0, and their difference is the change. */
  lemma BullsBearsSplit(x: real)
    ensures PositivePart(x) == Max(x, 0.0) && NegativePart(x) == Max(-x, 0.0)
    ensures PositivePart(x) - NegativePart(x) == x
    ensures PositivePart(x) == 0.0 || NegativePart(x) == 0.0
  {
  }

  /** The previous bar's price, 0 at bar 0: the first loop's `prevValuesList`. */
  function PrevValues(inp: Inputs, n: nat): (r: seq<real>)
    ensures |r| == n
  {
    Tabulate((k: nat) => At(inp.input, k - 1), n)
  }

  /** bulls0 and bears0: the two parts of the difference of the averaged prices. */
  function Bulls0Series(price1: seq<real>, price2: seq<real>, n: nat): (r: seq<real>)
    ensures |r| == n
  {
    Tabulate((k: nat) => PositivePart(At(price1, k) - At(price2, k)), n)
  }

  function Bears0Series(price1: seq<real>, price2: seq<real>, n: nat): (r: seq<real>)
    ensures |r| == n
  {
    Tabulate((k: nat) => NegativePart(At(price1, k) - At(price2, k)), n)
  }

  /** bulls1 and bears1: the first averaged price above the channel floor and below its ceiling. */
  function Bulls1Series(price1: seq<real>, lowest: seq<real>, n: nat): (r: seq<real>)
    ensures |r| == n
  {
    Tabulate((k: nat) => At(price1, k) - At(lowest, k), n)
  }

  function Bears1Series(price1: seq<real>, highest: seq<real>, n: nat): (r: seq<real>)
    ensures |r| == n
  {
    Tabulate((k: nat) => At(highest, k) - At(price1, k), n)
  }

  /** bulls2 and bears2: the positive parts of the rise of the high and of the fall of the low. */
  function Bulls2Series(inp: Inputs, n: nat): (r: seq<real>)
    ensures |r| == n
  {
    Tabulate((k: nat) => PositivePart(At(inp.high, k) - At(inp.high, k - 1)), n)
  }

  function Bears2Series(inp: Inputs, n: nat): (r: seq<real>)
    ensures |r| == n
  {
    Tabulate((k: nat) => PositivePart(At(inp.low, k - 1) - At(inp.low, k)), n)
  }

  /** What the second loop holds after bars 0 .. i - 1. */
  predicate MtfLoopState(inp: Inputs, price1: seq<real>, price2: seq<real>, highest: seq<real>, lowest: seq<real>,
                         i: nat, bulls0: seq<real>, bears0: seq<real>, bulls1: seq<real>, bears1: seq<real>,
                         bulls2: seq<real>, bears2: seq<real>)
  {
    && bulls0 == Bulls0Series(price1, price2, i) && bears0 == Bears0Series(price1, price2, i)
    && bulls1 == Bulls1Series(price1, lowest, i) && bears1 == Bears1Series(price1, highest, i)
    && bulls2 == Bulls2Series(inp, i) && bears2 == Bears2Series(inp, i)
  }

  /** One bar of the second loop. */
  lemma MtfLoopStep(inp: Inputs, price1: seq<real>, price2: seq<real>, highest: seq<real>, lowest: seq<real>,
                    i: nat, bulls0: seq<real>, bears0: seq<real>, bulls1: seq<real>, bears1: seq<real>,
                    bulls2: seq<real>, bears2: seq<real>)
    requires MtfLoopState(inp, price1, price2, highest, lowest, i, bulls0, bears0, bulls1, bears1, bulls2, bears2)
    ensures MtfLoopState(inp, price1, price2, highest, lowest, i + 1,
                         bulls0 + [PositivePart(At(price1, i) - At(price2, i))],
                         bears0 + [NegativePart(At(price1, i) - At(price2, i))],
                         bulls1 + [At(price1, i) - At(lowest, i)],
                         bears1 + [At(highest, i) - At(price1, i)],
                         bulls2 + [PositivePart(At(inp.high, i) - At(inp.high, i - 1))],
                         bears2 + [PositivePart(At(inp.low, i - 1) - At(inp.low, i))])
  {
    TabulateStep((k: nat) => PositivePart(At(price1, k) - At(price2, k)), i);
    TabulateStep((k: nat) => NegativePart(At(price1, k) - At(price2, k)), i);
    TabulateStep((k: nat) => At(price1, k) - At(lowest, k), i);
    TabulateStep((k: nat) => At(highest, k) - At(price1, k), i);
    TabulateStep((k: nat) => PositivePart(At(inp.high, k) - At(inp.high, k - 1)), i);
    TabulateStep((k: nat) => PositivePart(At(inp.low, k - 1) - At(inp.low, k)), i);
  }

  /** Bar k's bulls0 and bears0 split the difference d of the averaged
      prices: both non-negative, one of them 0, bulls0 - bears0 == d. */
  lemma MtfSplitAt(price1: seq<real>, price2: seq<real>, n: nat, k: nat)
    requires k < n
    ensures var bulls, bears, d := Bulls0Series(price1, price2, n)[k], Bears0Series(price1, price2, n)[k],
                                   At(price1, k) - At(price2, k);
            && bulls - bears == d
            && (bulls == 0.0 || bears == 0.0)
            && bulls == Max(d, 0.0) && bears == Max(-d, 0.0)
  {
    TabulateAt((j: nat) => PositivePart(At(price1, j) - At(price2, j)), n, k);
    TabulateAt((j: nat) => NegativePart(At(price1, j) - At(price2, j)), n, k);
    BullsBearsSplit(At(price1, k) - At(price2, k));
  }

  /** Bar k's bulls1 and bears1 split the channel from the lowest low to the
      highest high at the smoothed price: both parts are non-negative exactly
      when that price lies inside the channel, and bulls1 is the larger part
      exactly when the price lies above the channel's midpoint. */
  lemma MtfChannelAt(price1: seq<real>, highest: seq<real>, lowest: seq<real>, n: nat, k: nat)
    requires k < n
    ensures var bulls1, bears1 := Bulls1Series(price1, lowest, n)[k], Bears1Series(price1, highest, n)[k];
            && bulls1 + bears1 == At(highest, k) - At(lowest, k)
            && (bulls1 >= 0.0 && bears1 >= 0.0 <==> At(lowest, k) <= At(price1, k) <= At(highest, k))
            && (bulls1 > bears1 <==> 2.0 * At(price1, k) > At(highest, k) + At(lowest, k))
  {
    TabulateAt((j: nat) => At(price1, j) - At(lowest, j), n, k);
    TabulateAt((j: nat) => At(highest, j) - At(price1, j), n, k);
  }

  /** Bar k's bulls2 is the rise of the high, or 0. */
  lemma MtfHighRiseAt(inp: Inputs, n: nat, k: nat)
    requires k < n
    ensures Bulls2Series(inp, n)[k] == Max(At(inp.high, k) - At(inp.high, k - 1), 0.0)
  {
    TabulateAt((j: nat) => PositivePart(At(inp.high, j) - At(inp.high, j - 1)), n, k);
    BullsBearsSplit(At(inp.high, k) - At(inp.high, k - 1));
  }

  /** Bar k's bears2 is the fall of the low, or 0. */
  lemma MtfLowFallAt(inp: Inputs, n: nat, k: nat)
    requires k < n
    ensures Bears2Series(inp, n)[k] == Max(At(inp.low, k - 1) - At(inp.low, k), 0.0)
  {
    TabulateAt((j: nat) => PositivePart(At(inp.low, j - 1) - At(inp.low, j)), n, k);
    BullsBearsSplit(At(inp.low, k - 1) - At(inp.low, k));
  }

  /** The second loop of the MTF indicator over the first `count` bars. */
  method MtfLines(inp: Inputs, price1List: seq<real>, price2List: seq<real>, highestList: seq<real>,
                  lowestList: seq<real>, count: nat)
    returns (bulls0List: seq<real>, bears0List: seq<real>, bulls1List: seq<real>, bears1List: seq<real>,
             bulls2List: seq<real>, bears2List: seq<real>)
    ensures MtfLoopState(inp, price1List, price2List, highestList, lowestList, count,
                         bulls0List, bears0List, bulls1List, bears1List, bulls2List, bears2List)
  {
    bulls0List, bears0List, bulls1List, bears1List, bulls2List, bears2List := [], [], [], [], [], [];
    for i := 0 to count
      invariant MtfLoopState(inp, price1List, price2List, highestList, lowestList, i,
                             bulls0List, bears0List, bulls1List, bears1List, bulls2List, bears2List)
    {
      var price1 := At(price1List, i);
      var price2 := At(price2List, i);
      var highest := At(highestList, i);
      var lowest := At(lowestList, i);
      var high := At(inp.high, i);
      var low := At(inp.low, i);
      var prevHigh := At(inp.high, i - 1);
      var prevLow := At(inp.low, i - 1);
      MtfLoopStep(inp, price1List, price2List, highestList, lowestList, i,
                  bulls0List, bears0List, bulls1List, bears1List, bulls2List, bears2List);

      bulls0List := bulls0List + [PositivePart(price1 - price2)];
      bears0List := bears0List + [NegativePart(price1 - price2)];
      bulls1List := bulls1List + [price1 - lowest];
      bears1List := bears1List + [highest - price1];
      bulls2List := bulls2List + [PositivePart(high - prevHigh)];
      bears2List := bears2List + [PositivePart(prevLow - low)];
    }
  }

  /** The signal loop: smoothed bulls crossing smoothed bears. */
  method MtfSignalLines(compare: CompareClassifier, smthBulls0List: seq<real>, smthBears0List: seq<real>, count: nat)
    returns (signalsList: seq<Signal>)
    ensures signalsList == CrossSignals(compare, smthBulls0List, smthBears0List, count)
  {
    signalsList := [];
    for i := 0 to count
      invariant signalsList == CrossSignals(compare, smthBulls0List, smthBears0List, i)
    {
      var bulls := At(smthBulls0List, i);
      var bears := At(smthBears0List, i);
      var prevBulls := At(smthBulls0List, i - 1);
      var prevBears := At(smthBears0List, i - 1);
      var signal := CrossSignal(compare, bulls, prevBulls, bears, prevBears);
      signalsList := signalsList + [signal];
    }
  }

  /** The Absolute Strength MTF Indicator. `ma(length, list)` and
      `ma(smoothLength, list)` stand for `GetMovingAverageList` with the
      chosen `maType`; the averages of every list but bulls0 and bears0 are
      computed and never read. */
  method CalculateAbsoluteStrengthMTFIndicator(stockData: StockData, inp: Inputs, ma: MovingAverage,
                                               maxMin: MaxAndMinOfTwo, compare: CompareClassifier,
                                               length: int, smoothLength: int)
    modifies stockData
    ensures var channel := maxMin(inp.high, inp.low, length);
            var price1, price2 := ma(length, inp.input), ma(length, PrevValues(inp, stockData.Count));
            var bulls := ma(smoothLength, Bulls0Series(price1, price2, stockData.Count));
            var bears := ma(smoothLength, Bears0Series(price1, price2, stockData.Count));
            && stockData.OutputValues == map["Bulls" := bulls, "Bears" := bears]
            && stockData.SignalsList == CrossSignals(compare, bulls, bears, stockData.Count)
            && stockData.CustomValuesList == []
            && stockData.IndicatorName == Indicator.AbsoluteStrengthMTFIndicator
  {
    var channel := maxMin(inp.high, inp.low, length);
    var highestList, lowestList := channel.0, channel.1;

    var prevValuesList: seq<real> := [];
    for i := 0 to stockData.Count
      invariant prevValuesList == PrevValues(inp, i)
    {
      var prevValue := At(inp.input, i - 1);
      TabulateStep((k: nat) => At(inp.input, k - 1), i);
      prevValuesList := prevValuesList + [prevValue];
    }

    var price1List := ma(length, inp.input);
    var price2List := ma(length, prevValuesList);

    var bulls0List, bears0List, bulls1List, bears1List, bulls2List, bears2List :=
      MtfLines(inp, price1List, price2List, highestList, lowestList, stockData.Count);

    var avgBulls0List := ma(length, bulls0List);
    var avgBears0List := ma(length, bears0List);
    var avgBulls1List := ma(length, bulls1List);
    var avgBears1List := ma(length, bears1List);
    var avgBulls2List := ma(length, bulls2List);
    var avgBears2List := ma(length, bears2List);
    var smthBulls0List := ma(smoothLength, bulls0List);
    var smthBears0List := ma(smoothLength, bears0List);
    var smthBulls1List := ma(smoothLength, bulls1List);
    var smthBears1List := ma(smoothLength, bears1List);
    var smthBulls2List := ma(smoothLength, bulls2List);
    var smthBears2List := ma(smoothLength, bears2List);

    var signalsList := MtfSignalLines(compare, smthBulls0List, smthBears0List, stockData.Count);

    stockData.OutputValues := map["Bulls" := smthBulls0List, "Bears" := smthBears0List];
    stockData.SignalsList := signalsList;
    stockData.CustomValuesList := [];
    stockData.IndicatorName := Indicator.AbsoluteStrengthMTFIndicator;
  }

  // ===========================================================================
  // Anchored Momentum (Calculations/Oscillator.cs:1911-1954)

  /** `sma != 0 ? 100 * ((ema / sma) - 1) : 0`: the smoothed price's excess
      over the anchor average, in percent. */
  function AnchoredValue(ema: real, sma: real): real {
    if sma != 0.0 then 100.0 * (ema / sma - 1.0) else 0.0
  }

  /** Bar k's anchor: the average price of the trailing `p` bars. */
  function AnchorAt(inp: Inputs, p: int, k: nat): real
    requires p >= 1
  {
    Average(TakeLast(Padded(inp.input, k + 1), p))
  }

  function AmomSeries(inp: Inputs, emaList: seq<real>, p: int, n: nat): (r: seq<real>)
    requires p >= 1
    ensures |r| == n
  {
    Tabulate((k: nat) => AnchoredValue(At(emaList, k), AnchorAt(inp, p, k)), n)
  }

  /** Bar k's signal line: the average momentum of the trailing `signalLength` bars. */
  function AmomsAt(inp: Inputs, emaList: seq<real>, p: int, signalLength: int, k: nat): real
    requires p >= 1 && signalLength >= 1
  {
    Average(TakeLast(AmomSeries(inp, emaList, p, k + 1), signalLength))
  }

  function AmomsSeries(inp: Inputs, emaList: seq<real>, p: int, signalLength: int, n: nat): (r: seq<real>)
    requires p >= 1 && signalLength >= 1
    ensures |r| == n
  {
    Tabulate((k: nat) => AmomsAt(inp, emaList, p, signalLength, k), n)
  }

  /** What the loop holds after bars 0 .. i - 1. */
  predicate AnchoredLoopState(inp: Inputs, emaList: seq<real>, p: int, signalLength: int, compare: CompareClassifier,
                              i: nat, prices: seq<real>, amom: seq<real>, amoms: seq<real>, signals: seq<Signal>)
    requires p >= 1 && signalLength >= 1
  {
    && prices == Padded(inp.input, i)
    && amom == AmomSeries(inp, emaList, p, i)
    && amoms == AmomsSeries(inp, emaList, p, signalLength, i)
    && signals == CrossSignals(compare, amom, amoms, i)
  }

  /** Bar i's momentum, from the prices of bars 0 .. i. */
  lemma AmomStep(inp: Inputs, emaList: seq<real>, p: int, i: nat, prices: seq<real>, amom: seq<real>,
                 sma: real, value: real)
    requires p >= 1
    requires prices == Padded(inp.input, i) && amom == AmomSeries(inp, emaList, p, i)
    requires sma == Average(TakeLast(prices + [At(inp.input, i)], p))
    requires value == AnchoredValue(At(emaList, i), sma)
    ensures AmomSeries(inp, emaList, p, i + 1) == amom + [value]
  {
    assert Padded(inp.input, i + 1) == prices + [At(inp.input, i)];
    TabulateStep((k: nat) => AnchoredValue(At(emaList, k), AnchorAt(inp, p, k)), i);
  }

  /** Bar i's signal line, from the momentum of bars 0 .. i. */
  lemma AmomsStep(inp: Inputs, emaList: seq<real>, p: int, signalLength: int, i: nat, amom: seq<real>,
                  amoms: seq<real>, average: real)
    requires p >= 1 && signalLength >= 1
    requires amom == AmomSeries(inp, emaList, p, i + 1) && amoms == AmomsSeries(inp, emaList, p, signalLength, i)
    requires average == Average(TakeLast(amom, signalLength))
    ensures AmomsSeries(inp, emaList, p, signalLength, i + 1) == amoms + [average]
  {
    TabulateStep((k: nat) => AmomsAt(inp, emaList, p, signalLength, k), i);
  }

  /** One bar of the loop, with the values it computes. */
  lemma AnchoredLoopStep(inp: Inputs, emaList: seq<real>, p: int, signalLength: int, compare: CompareClassifier,
                         i: nat, prices: seq<real>, amom: seq<real>, amoms: seq<real>, signals: seq<Signal>,
                         sma: real, value: real, average: real, signal: Signal)
    requires p >= 1 && signalLength >= 1
    requires AnchoredLoopState(inp, emaList, p, signalLength, compare, i, prices, amom, amoms, signals)
    requires sma == Average(TakeLast(prices + [At(inp.input, i)], p))
    requires value == AnchoredValue(At(emaList, i), sma)
    requires average == Average(TakeLast(amom + [value], signalLength))
    requires signal == CrossSignal(compare, value, Last(amom), average, Last(amoms))
    ensures AnchoredLoopState(inp, emaList, p, signalLength, compare, i + 1, prices + [At(inp.input, i)],
                              amom + [value], amoms + [average], signals + [signal])
  {
    AmomStep(inp, emaList, p, i, prices, amom, sma, value);
    AmomsStep(inp, emaList, p, signalLength, i, amom + [value], amoms, average);
    CrossSignalsAppend(compare, amom, amoms, value, average, i);
  }

  /** The anchor is the window average: the sum of the prices of bars
      max(0, k - p + 1) .. k over the number of those bars. */
  lemma AnchorIsWindowAverage(inp: Inputs, p: int, k: nat)
    requires p >= 1
    ensures AnchorAt(inp, p, k) == SumRange(Padded(inp.input, k + 1), WindowStart(k, p), k + 1) / (MinInt(p, k + 1) as real)
  {
    TrailingAverage(Padded(inp.input, k + 1), k, p);
  }

  /** The signal line is the window average of the momentum. */
  lemma AmomsIsWindowAverage(inp: Inputs, emaList: seq<real>, p: int, signalLength: int, n: nat, k: nat)
    requires p >= 1 && signalLength >= 1 && k < n
    ensures AmomsSeries(inp, emaList, p, signalLength, n)[k]
         == SumRange(AmomSeries(inp, emaList, p, k + 1), WindowStart(k, signalLength), k + 1)
            / (MinInt(signalLength, k + 1) as real)
  {
    TabulateAt((j: nat) => AmomsAt(inp, emaList, p, signalLength, j), n, k);
    TrailingAverage(AmomSeries(inp, emaList, p, k + 1), k, signalLength);
  }

  /** `a / b - 1 == (a - b) / b == (b - a) / (-b)` for `b != 0`. */
  lemma QuotientMinusOne(a: real, b: real)
    requires b != 0.0
    ensures a / b - 1.0 == (a - b) / b == (b - a) / (-b)
  {
    QuotientUnique(a / b - 1.0, a - b, b);
    QuotientUnique((a - b) / b, b - a, -b);
  }

  /** Against a positive anchor the momentum has the sign of `ema - sma`;
      against a negative one the opposite sign; a zero anchor gives 0. */
  lemma AnchoredValueSign(ema: real, sma: real)
    ensures sma == 0.0 ==> AnchoredValue(ema, sma) == 0.0
    ensures sma > 0.0 ==> (AnchoredValue(ema, sma) > 0.0 <==> ema > sma) && (AnchoredValue(ema, sma) == 0.0 <==> ema == sma)
    ensures sma < 0.0 ==> (AnchoredValue(ema, sma) > 0.0 <==> ema < sma) && (AnchoredValue(ema, sma) == 0.0 <==> ema == sma)
  {
    if sma > 0.0 {
      QuotientMinusOne(ema, sma);
      QuotientSign(ema - sma, sma);
    } else if sma < 0.0 {
      QuotientMinusOne(ema, sma);
      QuotientSign(sma - ema, -sma);
    }
  }

  /** Bar k's momentum is positive exactly when the smoothed price is above a
      positive anchor. */
  lemma AmomSign(inp: Inputs, emaList: seq<real>, p: int, n: nat, k: nat)
    requires p >= 1 && k < n
    ensures var sma := AnchorAt(inp, p, k);
            var amom := AmomSeries(inp, emaList, p, n)[k];
            && (sma == 0.0 ==> amom == 0.0)
            && (sma > 0.0 ==> (amom > 0.0 <==> At(emaList, k) > sma) && (amom == 0.0 <==> At(emaList, k) == sma))
  {
    TabulateAt((j: nat) => AnchoredValue(At(emaList, j), AnchorAt(inp, p, j)), n, k);
    AnchoredValueSign(At(emaList, k), AnchorAt(inp, p, k));
  }

  /** One bar of the loop: the price it records and the momentum, signal
      line and signal it appends. */
  method AnchoredBar(inp: Inputs, emaList: seq<real>, p: int, signalLength: int, compare: CompareClassifier,
                     i: nat, tempList: seq<real>, amomList: seq<real>, amomsList: seq<real>, ghost signalsList: seq<Signal>)
    returns (currentValue: real, amom: real, amoms: real, signal: Signal)
    requires p >= 1 && signalLength >= 1
    requires AnchoredLoopState(inp, emaList, p, signalLength, compare, i, tempList, amomList, amomsList, signalsList)
    ensures AnchoredLoopState(inp, emaList, p, signalLength, compare, i + 1, tempList + [currentValue],
                              amomList + [amom], amomsList + [amoms], signalsList + [signal])
  {
    var currentEma := At(emaList, i);
    currentValue := At(inp.input, i);
    var window := tempList + [currentValue];

    var sma := Average(TakeLast(window, p));
    var prevAmom := Last(amomList);
    amom := AnchoredValue(currentEma, sma);

    var prevAmoms := Last(amomsList);
    amoms := Average(TakeLast(amomList + [amom], signalLength));

    signal := CrossSignal(compare, amom, prevAmom, amoms, prevAmoms);
    AnchoredLoopStep(inp, emaList, p, signalLength, compare, i, tempList, amomList, amomsList, signalsList,
                     sma, amom, amoms, signal);
  }

  /** The per-bar loop once both windows are known to be non-empty. */
  method AnchoredLines(inp: Inputs, emaList: seq<real>, p: int, signalLength: int, compare: CompareClassifier,
                       count: nat)
    returns (amomList: seq<real>, amomsList: seq<real>, signalsList: seq<Signal>)
    requires p >= 1 && signalLength >= 1
    ensures amomList == AmomSeries(inp, emaList, p, count)
    ensures amomsList == AmomsSeries(inp, emaList, p, signalLength, count)
    ensures signalsList == CrossSignals(compare, amomList, amomsList, count)
  {
    var tempList: seq<real> := [];
    amomList, amomsList, signalsList := [], [], [];
    for i := 0 to count
      invariant AnchoredLoopState(inp, emaList, p, signalLength, compare, i, tempList, amomList, amomsList, signalsList)
    {
      var currentValue, amom, amoms, signal :=
        AnchoredBar(inp, emaList, p, signalLength, compare, i, tempList, amomList, amomsList, signalsList);
      tempList := tempList + [currentValue];
      amomList := amomList + [amom];
      amomsList := amomsList + [amoms];
      signalsList := signalsList + [signal];
    }
  }

  /** `p` is `MinOrMax(2 * momentumLength + 1)`; `Average()` of an empty
      window throws on the first bar when `p` or `signalLength` is not
      positive, before the context is touched. */
  method CalculateAnchoredMomentum(stockData: StockData, inp: Inputs, ma: MovingAverage, clamp: IntClamp,
                                   compare: CompareClassifier, smoothLength: int, signalLength: int,
                                   momentumLength: int)
    returns (outcome: Outcome)
    modifies stockData
    ensures var p := clamp(2 * momentumLength + 1);
            outcome == (if stockData.Count > 0 && (p <= 0 || signalLength <= 0) then Fail(EmptySequence) else Pass)
    ensures outcome.Fail? ==> unchanged(stockData)
    ensures var p := clamp(2 * momentumLength + 1);
            outcome.Pass? && p >= 1 && signalLength >= 1 ==>
              var emaList := ma(smoothLength, inp.input);
              var amom := AmomSeries(inp, emaList, p, stockData.Count);
              var amoms := AmomsSeries(inp, emaList, p, signalLength, stockData.Count);
              && stockData.OutputValues == map["Amom" := amom, "Signal" := amoms]
              && stockData.SignalsList == CrossSignals(compare, amom, amoms, stockData.Count)
              && stockData.CustomValuesList == amom
              && stockData.IndicatorName == Indicator.AnchoredMomentum
    ensures var p := clamp(2 * momentumLength + 1);
            outcome.Pass? && !(p >= 1 && signalLength >= 1) ==>
              && stockData.OutputValues == map["Amom" := [], "Signal" := []]
              && stockData.SignalsList == [] && stockData.CustomValuesList == []
              && stockData.IndicatorName == Indicator.AnchoredMomentum
  {
    var p := clamp(2 * momentumLength + 1);
    var emaList := ma(smoothLength, inp.input);
    var amomList: seq<real> := [];
    var amomsList: seq<real> := [];
    var signalsList: seq<Signal> := [];
    if p >= 1 && signalLength >= 1 {
      amomList, amomsList, signalsList := AnchoredLines(inp, emaList, p, signalLength, compare, stockData.Count);
    } else if stockData.Count > 0 {
      return Fail(EmptySequence);
    }

    stockData.OutputValues := map["Amom" := amomList, "Signal" := amomsList];
    stockData.SignalsList := signalsList;
    stockData.CustomValuesList := amomList;
    stockData.IndicatorName := Indicator.AnchoredMomentum;
    outcome := Pass;
  }

  // ===========================================================================
  // Accumulative Swing Index (Calculations/Oscillator.cs:1963-2016)

  /** The swing index's `r`: the largest of the three moves decides the
      formula; 0 when none of them is strictly the largest. */
  function SwingRange(highPrevClose: real, lowPrevClose: real, t: real, prevClosePrevOpen: real): real {
    if highPrevClose > Max(lowPrevClose, t) then highPrevClose - 0.5 * lowPrevClose + 0.25 * prevClosePrevOpen
    else if lowPrevClose > Max(highPrevClose, t) then lowPrevClose - 0.5 * highPrevClose + 0.25 * prevClosePrevOpen
    else if t > Max(highPrevClose, lowPrevClose) then t + 0.25 * prevClosePrevOpen
    else 0.0
  }

  /** `r != 0 && t != 0 ? 50 * (num / r) * (k / t) : 0`. */
  function SwingValue(num: real, r: real, k: real, t: real): real {
    if r != 0.0 && t != 0.0 then 50.0 * (num / r) * (k / t) else 0.0
  }

  /** One bar's swing index from its prices and the previous bar's. */
  function SwingIndex(close: real, high: real, low: real, open: real,
                      prevClose: real, prevOpen: real, prevHigh: real, prevLow: real): real {
    var t := high - low;
    var k := Max(Abs(prevHigh - close), Abs(prevLow - close));
    var r := SwingRange(high - prevClose, low - prevClose, t, prevClose - prevOpen);
    SwingValue(prevClose - close + 0.5 * (prevClose - prevOpen) + 0.25 * (close - open), r, k, t)
  }

  function SwingAt(inp: Inputs, k: nat): real {
    SwingIndex(At(inp.input, k), At(inp.high, k), At(inp.low, k), At(inp.open, k),
               At(inp.input, k - 1), At(inp.open, k - 1), At(inp.high, k - 1), At(inp.low, k - 1))
  }

  function SwingSeries(inp: Inputs, n: nat): (r: seq<real>)
    ensures |r| == n
  {
    Tabulate((k: nat) => SwingAt(inp, k), n)
  }

  /** The accumulated index: each bar adds its swing index to the previous total. */
  function AccumulatedSwingSeries(inp: Inputs, n: nat): (r: seq<real>)
    ensures |r| == n
  {
    Scan((prev: real, k: nat) => prev + SwingAt(inp, k), n)
  }

  lemma AccumulatedSwingStep(inp: Inputs, asi: seq<real>, n: nat)
    requires asi == AccumulatedSwingSeries(inp, n)
    ensures AccumulatedSwingSeries(inp, n + 1) == asi + [Last(asi) + SwingAt(inp, n)]
  {
    ScanStep((prev: real, k: nat) => prev + SwingAt(inp, k), n);
  }

  /** The last accumulated value is the sum of all swing indices so far. */
  lemma {:induction false} AccumulatedSwingIsSum(inp: Inputs, n: nat)
    ensures Last(AccumulatedSwingSeries(inp, n)) == SumRange(SwingSeries(inp, n), 0, n)
  {
    if n > 0 {
      AccumulatedSwingIsSum(inp, n - 1);
      AccumulatedSwingStep(inp, AccumulatedSwingSeries(inp, n - 1), n - 1);
      TabulateStep((k: nat) => SwingAt(inp, k), n - 1);
      var prev, cur := SwingSeries(inp, n - 1), SwingSeries(inp, n);
      assert cur[..n - 1] == prev[..n - 1];
      SumRangeOfPrefix(cur, prev, n - 1);
    }
  }

  /** Bar k of the Accumulative Swing Index is the running sum of the swing
      indices of bars 0 .. k. */
  lemma AccumulatedSwingAt(inp: Inputs, n: nat, k: nat)
    requires k < n
    ensures AccumulatedSwingSeries(inp, n)[k] == SumRange(SwingSeries(inp, n), 0, k + 1)
  {
    ScanPrefix((prev: real, j: nat) => prev + SwingAt(inp, j), k + 1, n);
    AccumulatedSwingIsSum(inp, k + 1);
    TabulatePrefix((j: nat) => SwingAt(inp, j), k + 1, n);
    var all := SwingSeries(inp, n);
    assert all[..k + 1] == SwingSeries(inp, k + 1)[..k + 1];
    SumRangeOfPrefix(all, SwingSeries(inp, k + 1), k + 1);
  }

  /** A bar with no range (high == low), or whose `r` is 0, swings by 0;
      otherwise, with positive r and k, the index has the sign of its numerator. */
  lemma SwingValueSign(num: real, r: real, k: real, t: real)
    ensures r == 0.0 || t == 0.0 ==> SwingValue(num, r, k, t) == 0.0
    ensures r > 0.0 && k > 0.0 && t > 0.0 ==>
              (SwingValue(num, r, k, t) > 0.0 <==> num > 0.0) && (SwingValue(num, r, k, t) < 0.0 <==> num < 0.0)
  {
    if r > 0.0 && k > 0.0 && t > 0.0 {
      QuotientSign(num, r);
      QuotientSign(k, t);
      var q, w := num / r, k / t;
      assert w > 0.0;
      if q > 0.0 { assert q * w > 0.0; }
      if q < 0.0 { assert (-q) * w > 0.0; }
      if q == 0.0 { assert q * w == 0.0; }
    }
  }

  method CalculateAccumulativeSwingIndex(stockData: StockData, inp: Inputs, ma: MovingAverage, compare: CompareClassifier,
                                         length: int)
    modifies stockData
    ensures var asi := AccumulatedSwingSeries(inp, stockData.Count);
            && stockData.OutputValues == map["Asi" := asi, "Signal" := ma(length, asi)]
            && stockData.SignalsList == TrendSignals(compare, asi, stockData.Count)
            && stockData.CustomValuesList == asi
            && stockData.IndicatorName == Indicator.AccumulativeSwingIndex
  {
    var accumulativeSwingIndexList: seq<real> := [];
    for i := 0 to stockData.Count
      invariant accumulativeSwingIndexList == AccumulatedSwingSeries(inp, i)
    {
      var currentClose := At(inp.input, i);
      var currentHigh := At(inp.high, i);
      var currentLow := At(inp.low, i);
      var currentOpen := At(inp.open, i);
      var prevClose := At(inp.input, i - 1);
      var prevOpen := At(inp.open, i - 1);
      var prevHigh := At(inp.high, i - 1);
      var prevLow := At(inp.low, i - 1);
      var prevHighCurrentClose := prevHigh - currentClose;
      var prevLowCurrentClose := prevLow - currentClose;
      var prevClosePrevOpen := prevClose - prevOpen;
      var currentHighPrevClose := currentHigh - prevClose;
      var currentLowPrevClose := currentLow - prevClose;
      var t := currentHigh - currentLow;
      var k := Max(Abs(prevHighCurrentClose), Abs(prevLowCurrentClose));
      var r := SwingRange(currentHighPrevClose, currentLowPrevClose, t, prevClosePrevOpen);
      var swingIndex := SwingValue(prevClose - currentClose + 0.5 * prevClosePrevOpen + 0.25 * (currentClose - currentOpen),
                                   r, k, t);

      var prevSwingIndex := Last(accumulativeSwingIndexList);
      var accumulativeSwingIndex := prevSwingIndex + swingIndex;
      AccumulatedSwingStep(inp, accumulativeSwingIndexList, i);
      accumulativeSwingIndexList := accumulativeSwingIndexList + [accumulativeSwingIndex];
    }

    var asiOscillatorList := ma(length, accumulativeSwingIndexList);
    var signalsList: seq<Signal> := [];
    for i := 0 to stockData.Count
      invariant signalsList == TrendSignals(compare, accumulativeSwingIndexList, i)
    {
      var asi := At(accumulativeSwingIndexList, i);
      var prevAsi := At(accumulativeSwingIndexList, i - 1);
      var signal := compare(asi, prevAsi);
      signalsList := signalsList + [signal];
    }

    stockData.OutputValues := map["Asi" := accumulativeSwingIndexList, "Signal" := asiOscillatorList];
    stockData.SignalsList := signalsList;
    stockData.CustomValuesList := accumulativeSwingIndexList;
    stockData.IndicatorName := Indicator.AccumulativeSwingIndex;
  }

  // ===========================================================================
  // Absolute Strength Index (Calculations/Oscillator.cs:1838-1900)

  /** The smoothing factor `2 / (signalLength + 1)` of the two signal lines. */
  function StrengthAlpha(signalLength: int): real
    requires signalLength + 1 != 0
  {
    2.0 / ((signalLength + 1) as real)
  }

  /** `A`: the running total of relative rises, `current / previous - 1`. */
  function RiseTotal(cur: real, prev: real, prevA: real): real {
    if cur > prev && prev != 0.0 then prevA + (cur / prev - 1.0) else prevA
  }

  /** `D`: the running total of relative falls, `previous / current - 1`. */
  function FallTotal(cur: real, prev: real, prevD: real): real {
    if cur < prev && cur != 0.0 then prevD + (prev / cur - 1.0) else prevD
  }

  /** `M` on an unchanged bar: the total grows by `1 / length`. */
  function FlatTotal(prevM: real, length: int): real
    requires length != 0
  {
    prevM + 1.0 / (length as real)
  }

  /** Whether `1 / (1 + (A + M) / 2 / ((D + M) / 2))` has a non-zero divisor
      whenever it is evaluated. */
  predicate StrengthDefined(a: real, m: real, d: real) {
    (d + m) / 2.0 == 0.0 || 1.0 + (a + m) / 2.0 / ((d + m) / 2.0) != 0.0
  }

  /** `abssi`: the strength of rises against falls, 1 when there are no falls. */
  function StrengthRatio(a: real, m: real, d: real): real
    requires StrengthDefined(a, m, d)
  {
    if (d + m) / 2.0 != 0.0 then 1.0 - 1.0 / (1.0 + (a + m) / 2.0 / ((d + m) / 2.0)) else 1.0
  }

  /** One step of the exponential smoothing `alp * x + (1 - alp) * prev`. */
  function Blend(alp: real, x: real, prev: real): real {
    alp * x + (1.0 - alp) * prev
  }

  /** `s`: the double-smoothed spread `(2 - alp) * (mt - ut) / (1 - alp)`. */
  function Spread(alp: real, mt: real, ut: real): real
    requires alp != 1.0
  {
    (2.0 - alp) * (mt - ut) / (1.0 - alp)
  }

  /** The values one bar appends to the seven lists `A`, `M`, `D`, the
      `abssi` average, `mt`, `ut` and `d`. */
  datatype StrengthRow = StrengthRow(a: real, m: real, dd: real, ema: real, mt: real, ut: real, d: real)

  /** A bar's values, or the exception its formulas raise. */
  datatype StrengthBarOutcome = Computed(row: StrengthRow) | Raised(error: Failure)

  datatype StrengthLists = StrengthLists(a: seq<real>, m: seq<real>, dd: seq<real>, ema: seq<real>,
                                         mt: seq<real>, ut: seq<real>, d: seq<real>)

  /** The lists after some bars, or the exception that ended the loop. */
  datatype StrengthRun = Running(lists: StrengthLists) | Stopped(error: Failure)

  predicate StrengthSized(ls: StrengthLists, n: nat) {
    |ls.a| == n && |ls.m| == n && |ls.dd| == n && |ls.ema| == n && |ls.mt| == n && |ls.ut| == n && |ls.d| == n
  }

  function StrengthExtend(ls: StrengthLists, row: StrengthRow): StrengthLists {
    StrengthLists(ls.a + [row.a], ls.m + [row.m], ls.dd + [row.dd], ls.ema + [row.ema],
                  ls.mt + [row.mt], ls.ut + [row.ut], ls.d + [row.d])
  }

  /** One bar of the loop, given the previous and current price and the lists
      so far; the three divisions that can raise are checked in the order the
      formulas evaluate them. */
  function StrengthBar(cur: real, prev: real, ls: StrengthLists, length: int, maLength: int, alp: real,
                       ema: EmaStep): (r: StrengthBarOutcome)
    ensures r.Raised? <==> (cur == prev && length == 0)
                           || (!(cur == prev && length == 0)
                               && !StrengthDefined(RiseTotal(cur, prev, Last(ls.a)),
                                                   if cur == prev then FlatTotal(Last(ls.m), length) else Last(ls.m),
                                                   FallTotal(cur, prev, Last(ls.dd))))
                           || alp == 1.0
    ensures r.Raised? ==> r.error == DivideByZero
  {
    var a := RiseTotal(cur, prev, Last(ls.a));
    if cur == prev && length == 0 then Raised(DivideByZero)
    else
      var m := if cur == prev then FlatTotal(Last(ls.m), length) else Last(ls.m);
      var dd := FallTotal(cur, prev, Last(ls.dd));
      if !StrengthDefined(a, m, dd) then Raised(DivideByZero)
      else
        var abssi := StrengthRatio(a, m, dd);
        var abssiEma := ema(abssi, Last(ls.ema), maLength);
        var abssio := abssi - abssiEma;
        var mt := Blend(alp, abssio, Last(ls.mt));
        var ut := Blend(alp, mt, Last(ls.ut));
        if alp == 1.0 then Raised(DivideByZero)
        else Computed(StrengthRow(a, m, dd, abssiEma, mt, ut, abssio - Spread(alp, mt, ut)))
  }

  /** The loop over the first `n` bars: it stops at the first bar that raises. */
  function StrengthRunAfter(inp: Inputs, length: int, maLength: int, alp: real, ema: EmaStep, n: nat): (r: StrengthRun)
    ensures r.Stopped? ==> r.error == DivideByZero
    ensures r.Running? ==> StrengthSized(r.lists, n)
  {
    if n == 0 then Running(StrengthLists([], [], [], [], [], [], []))
    else
      match StrengthRunAfter(inp, length, maLength, alp, ema, n - 1)
      case Stopped(e) => Stopped(e)
      case Running(ls) =>
        match StrengthBar(At(inp.input, n - 1), At(inp.input, n - 2), ls, length, maLength, alp, ema)
        case Raised(e) => Stopped(e)
        case Computed(row) => Running(StrengthExtend(ls, row))
  }

  function StrengthOutcome(run: StrengthRun): Outcome {
    if run.Stopped? then Fail(run.error) else Pass
  }

  /** Once a bar has raised, no later bar is reached. */
  lemma {:induction false} StrengthStopsPersist(inp: Inputs, length: int, maLength: int, alp: real, ema: EmaStep,
                                                i: nat, n: nat)
    requires i <= n && StrengthRunAfter(inp, length, maLength, alp, ema, i).Stopped?
    ensures StrengthRunAfter(inp, length, maLength, alp, ema, n) == StrengthRunAfter(inp, length, maLength, alp, ema, i)
    decreases n
  {
    if i < n {
      StrengthStopsPersist(inp, length, maLength, alp, ema, i, n - 1);
    }
  }

  /** A bar that raises ends the whole loop with that exception. */
  lemma StrengthStopsAt(inp: Inputs, length: int, maLength: int, alp: real, ema: EmaStep, ls: StrengthLists,
                        i: nat, n: nat)
    requires i < n && StrengthRunAfter(inp, length, maLength, alp, ema, i) == Running(ls)
    requires StrengthBar(At(inp.input, i), At(inp.input, i - 1), ls, length, maLength, alp, ema).Raised?
    ensures StrengthRunAfter(inp, length, maLength, alp, ema, n) == Stopped(DivideByZero)
  {
    StrengthStopsPersist(inp, length, maLength, alp, ema, i + 1, n);
  }

  /** The smoothing factor is 1 exactly for a signal length of 1, and lies in
      (0, 1] for every positive signal length. */
  lemma StrengthAlphaRange(signalLength: int)
    requires signalLength + 1 != 0
    ensures StrengthAlpha(signalLength) == 1.0 <==> signalLength == 1
    ensures signalLength >= 1 ==> 0.0 < StrengthAlpha(signalLength) <= 1.0
  {
    var alp, den := StrengthAlpha(signalLength), (signalLength + 1) as real;
    assert alp * den == 2.0;
    if signalLength >= 1 {
      QuotientSign(2.0, den);
      assert alp * den <= den;
    }
  }

  /** With a signal length of 1 the spread divides by zero on the first bar. */
  lemma StrengthFailsWithUnitAlpha(inp: Inputs, length: int, maLength: int, ema: EmaStep, n: nat)
    requires n > 0
    ensures StrengthRunAfter(inp, length, maLength, 1.0, ema, n) == Stopped(DivideByZero)
  {
    StrengthStopsAt(inp, length, maLength, 1.0, ema, StrengthLists([], [], [], [], [], [], []), 0, n);
  }

  /** With a length of 0 the first unchanged bar divides by zero; in
      particular a first price of 0 equals the 0 that stands in for its
      missing predecessor. */
  lemma StrengthFailsOnFlatBar(inp: Inputs, maLength: int, alp: real, ema: EmaStep, i: nat, n: nat)
    requires i < n && At(inp.input, i) == At(inp.input, i - 1)
    requires StrengthRunAfter(inp, 0, maLength, alp, ema, i).Running?
    ensures StrengthRunAfter(inp, 0, maLength, alp, ema, n) == Stopped(DivideByZero)
  {
    StrengthStopsAt(inp, 0, maLength, alp, ema, StrengthRunAfter(inp, 0, maLength, alp, ema, i).lists, i, n);
  }

  /** With non-negative totals the ratio is always defined, lies in [0, 1] and
      equals (A + M) / (A + D + 2M) whenever D + M is not 0. */
  lemma StrengthRatioRange(a: real, m: real, d: real)
    requires a >= 0.0 && m >= 0.0 && d >= 0.0
    ensures StrengthDefined(a, m, d)
    ensures 0.0 <= StrengthRatio(a, m, d) <= 1.0
    ensures d + m != 0.0 ==> StrengthRatio(a, m, d) == (a + m) / (a + d + 2.0 * m)
  {
    if d + m != 0.0 {
      var q := (a + m) / 2.0 / ((d + m) / 2.0);
      QuotientUnique(q, a + m, d + m);
      assert q >= 0.0 by { QuotientSign(a + m, d + m); }
      var u := 1.0 / (1.0 + q);
      assert u * (1.0 + q) == 1.0;
      assert 0.0 < u <= 1.0 by { QuotientSign(1.0, 1.0 + q); UnitQuotient(1.0, 1.0 + q); }
      var r := 1.0 - u;
      assert r * (a + d + 2.0 * m) == a + m by {
        assert q * (d + m) == a + m;
        assert u * (1.0 + q) * (d + m) == d + m;
        assert u * ((d + m) + (a + m)) == d + m;
      }
      QuotientUnique(r, a + m, a + d + 2.0 * m);
    }
  }

  /** On positive prices the rise and fall totals never decrease (the first
      bar's predecessor is the stand-in 0). */
  lemma StrengthTotalsGrow(cur: real, prev: real, prevA: real, prevD: real)
    requires cur > 0.0 && prev >= 0.0
    ensures RiseTotal(cur, prev, prevA) >= prevA
    ensures FallTotal(cur, prev, prevD) >= prevD
  {
    if cur > prev && prev != 0.0 {
      assert cur / prev * prev == cur;
    }
    if cur < prev {
      QuotientUnique(prev / cur - 1.0, prev - cur, cur);
      QuotientSign(prev - cur, cur);
    }
  }

  /** On positive prices, a positive length and a smoothing factor other than
      1, no bar raises, and the three totals stay non-negative. */
  lemma {:induction false} StrengthNeverStops(inp: Inputs, length: int, maLength: int, alp: real, ema: EmaStep, n: nat)
    requires forall k :: 0 <= k < n ==> At(inp.input, k) > 0.0
    requires length > 0 && alp != 1.0
    ensures StrengthRunAfter(inp, length, maLength, alp, ema, n).Running?
    ensures var ls := StrengthRunAfter(inp, length, maLength, alp, ema, n).lists;
            Last(ls.a) >= 0.0 && Last(ls.m) >= 0.0 && Last(ls.dd) >= 0.0
  {
    if n > 0 {
      StrengthNeverStops(inp, length, maLength, alp, ema, n - 1);
      var ls := StrengthRunAfter(inp, length, maLength, alp, ema, n - 1).lists;
      var cur, prev := At(inp.input, n - 1), At(inp.input, n - 2);
      assert cur > 0.0;
      assert prev >= 0.0 by {
        if n >= 2 { assert At(inp.input, n - 2) > 0.0; }
      }
      StrengthTotalsGrow(cur, prev, Last(ls.a), Last(ls.dd));
      var m := if cur == prev then FlatTotal(Last(ls.m), length) else Last(ls.m);
      assert m >= 0.0 by {
        if cur == prev { assert 1.0 / (length as real) > 0.0 by { QuotientSign(1.0, length as real); } }
      }
      StrengthRatioRange(RiseTotal(cur, prev, Last(ls.a)), m, FallTotal(cur, prev, Last(ls.dd)));
      match StrengthBar(cur, prev, ls, length, maLength, alp, ema)
      case Computed(row) =>
        var ls2 := StrengthExtend(ls, row);
        assert Last(ls2.a) == row.a && Last(ls2.m) == row.m && Last(ls2.dd) == row.dd;
    }
  }

  /** The loop's state after `i` bars: the seven lists are those the loop has
      built and no bar has raised; the signals compare `d` with its previous value. */
  predicate StrengthLoopState(inp: Inputs, length: int, maLength: int, alp: real, ema: EmaStep,
                              compare: CompareClassifier, i: nat, ls: StrengthLists, signals: seq<Signal>) {
    && StrengthRunAfter(inp, length, maLength, alp, ema, i) == Running(ls)
    && signals == TrendSignals(compare, ls.d, i)
  }

  lemma StrengthLoopStep(inp: Inputs, length: int, maLength: int, alp: real, ema: EmaStep, compare: CompareClassifier,
                         i: nat, ls: StrengthLists, signals: seq<Signal>, row: StrengthRow, signal: Signal)
    requires StrengthLoopState(inp, length, maLength, alp, ema, compare, i, ls, signals)
    requires StrengthBar(At(inp.input, i), At(inp.input, i - 1), ls, length, maLength, alp, ema) == Computed(row)
    requires signal == compare(row.d, Last(ls.d))
    ensures StrengthLoopState(inp, length, maLength, alp, ema, compare, i + 1, StrengthExtend(ls, row), signals + [signal])
  {
    TrendSignalsAppend(compare, ls.d, row.d, i);
  }

  /** The first two ways a bar raises: an unchanged price with a length of
      0, or a ratio whose divisor is 0. */
  lemma StrengthBarRaises(cur: real, prev: real, ls: StrengthLists, length: int, maLength: int, alp: real,
                          ema: EmaStep, a: real, m: real, d: real)
    requires a == RiseTotal(cur, prev, Last(ls.a)) && d == FallTotal(cur, prev, Last(ls.dd))
    requires (cur == prev && length == 0)
             || (!(cur == prev && length == 0) && m == (if cur == prev then FlatTotal(Last(ls.m), length) else Last(ls.m))
                 && !StrengthDefined(a, m, d))
    ensures StrengthBar(cur, prev, ls, length, maLength, alp, ema).Raised?
  { }

  /** A bar that gets past its ratio computes these values. */
  lemma StrengthBarComputes(cur: real, prev: real, ls: StrengthLists, length: int, maLength: int, alp: real,
                            ema: EmaStep, row: StrengthRow)
    requires !(cur == prev && length == 0)
    requires row.a == RiseTotal(cur, prev, Last(ls.a)) && row.dd == FallTotal(cur, prev, Last(ls.dd))
    requires row.m == if cur == prev then FlatTotal(Last(ls.m), length) else Last(ls.m)
    requires StrengthDefined(row.a, row.m, row.dd)
    requires row.ema == ema(StrengthRatio(row.a, row.m, row.dd), Last(ls.ema), maLength)
    requires row.mt == Blend(alp, StrengthRatio(row.a, row.m, row.dd) - row.ema, Last(ls.mt))
    requires row.ut == Blend(alp, row.mt, Last(ls.ut))
    requires alp != 1.0 && row.d == StrengthRatio(row.a, row.m, row.dd) - row.ema - Spread(alp, row.mt, row.ut)
    ensures StrengthBar(cur, prev, ls, length, maLength, alp, ema) == Computed(row)
  { }

  /** The per-bar loop of the Absolute Strength Index over the first `count`
      bars; `raised` tells whether a bar raised before the end. */
  method StrengthLines(inp: Inputs, length: int, maLength: int, alp: real, ema: EmaStep, compare: CompareClassifier,
                       count: nat)
    returns (raised: bool, dList: seq<real>, signalsList: seq<Signal>)
    ensures var run := StrengthRunAfter(inp, length, maLength, alp, ema, count);
            && (raised <==> run.Stopped?)
            && (!raised ==> dList == run.lists.d && signalsList == TrendSignals(compare, dList, count))
  {
    var AList: seq<real> := [];
    var MList: seq<real> := [];
    var DList: seq<real> := [];
    var mtList: seq<real> := [];
    var utList: seq<real> := [];
    var abssiEmaList: seq<real> := [];
    dList := [];
    signalsList := [];
    for i := 0 to count
      invariant StrengthLoopState(inp, length, maLength, alp, ema, compare, i,
                                  StrengthLists(AList, MList, DList, abssiEmaList, mtList, utList, dList), signalsList)
    {
      ghost var ls := StrengthLists(AList, MList, DList, abssiEmaList, mtList, utList, dList);
      var currentValue := At(inp.input, i);
      var prevValue := At(inp.input, i - 1);

      var prevA := Last(AList);
      var A := RiseTotal(currentValue, prevValue, prevA);

      var prevM := Last(MList);
      var prevD := Last(DList);
      var D := FallTotal(currentValue, prevValue, prevD);
      if currentValue == prevValue && length == 0 {
        StrengthBarRaises(currentValue, prevValue, ls, length, maLength, alp, ema, A, 0.0, D);
        StrengthStopsAt(inp, length, maLength, alp, ema, ls, i, count);
        return true, [], [];
      }
      var M := if currentValue == prevValue then FlatTotal(prevM, length) else prevM;

      if !StrengthDefined(A, M, D) {
        StrengthBarRaises(currentValue, prevValue, ls, length, maLength, alp, ema, A, M, D);
        StrengthStopsAt(inp, length, maLength, alp, ema, ls, i, count);
        return true, [], [];
      }
      var abssi := StrengthRatio(A, M, D);
      var abssiEma := ema(abssi, Last(abssiEmaList), maLength);

      var abssio := abssi - abssiEma;
      var prevMt := Last(mtList);
      var mt := Blend(alp, abssio, prevMt);

      var prevUt := Last(utList);
      var ut := Blend(alp, mt, prevUt);

      if alp == 1.0 {
        StrengthStopsAt(inp, length, maLength, alp, ema, ls, i, count);
        return true, [], [];
      }
      var s := Spread(alp, mt, ut);
      var prevd := Last(dList);
      var d := abssio - s;

      var signal := compare(d, prevd);
      var row := StrengthRow(A, M, D, abssiEma, mt, ut, d);
      StrengthBarComputes(currentValue, prevValue, ls, length, maLength, alp, ema, row);
      StrengthLoopStep(inp, length, maLength, alp, ema, compare, i, ls, signalsList, row, signal);
      AList := AList + [A];
      MList := MList + [M];
      DList := DList + [D];
      abssiEmaList := abssiEmaList + [abssiEma];
      mtList := mtList + [mt];
      utList := utList + [ut];
      dList := dList + [d];
      signalsList := signalsList + [signal];
    }
    raised := false;
  }

  /** Raises DivideByZero for a signal length of -1 before any bar, and
      otherwise at the first bar whose formulas divide by zero; the context is
      then left as it was. */
  method CalculateAbsoluteStrengthIndex(stockData: StockData, inp: Inputs, ema: EmaStep, compare: CompareClassifier,
                                        length: int, maLength: int, signalLength: int)
    returns (outcome: Outcome)
    modifies stockData
    ensures signalLength + 1 == 0 ==> outcome == Fail(DivideByZero)
    ensures signalLength + 1 != 0 ==>
              outcome == StrengthOutcome(StrengthRunAfter(inp, length, maLength, StrengthAlpha(signalLength), ema,
                                                          stockData.Count))
    ensures outcome.Fail? ==> unchanged(stockData)
    ensures outcome.Pass? ==>
              && signalLength + 1 != 0
              && var d := StrengthRunAfter(inp, length, maLength, StrengthAlpha(signalLength), ema, stockData.Count).lists.d;
              && stockData.OutputValues == map["Asi" := d]
              && stockData.SignalsList == TrendSignals(compare, d, stockData.Count)
              && stockData.CustomValuesList == d
              && stockData.IndicatorName == Indicator.AbsoluteStrengthIndex
  {
    if signalLength + 1 == 0 {
      return Fail(DivideByZero);
    }
    var alp := StrengthAlpha(signalLength);
    var raised, dList, signalsList := StrengthLines(inp, length, maLength, alp, ema, compare, stockData.Count);
    if raised {
      return Fail(DivideByZero);
    }
    stockData.OutputValues := map["Asi" := dList];
    stockData.SignalsList := signalsList;
    stockData.CustomValuesList := dList;
    stockData.IndicatorName := Indicator.AbsoluteStrengthIndex;
    outcome := Pass;
  }
}
