/** The JMA RSX clone (Calculations/Oscillator.cs:2476-2592): three cascades
    of double exponential filters over 100 times the price, a warm-up
    counter, and an RSX value computed from the ratio of two filter outputs
    once the counter has passed the warm-up period.

    Every list of the loop except `rsxList` is read only through
    `LastOrDefault()`, so the model keeps the last value of each in one
    record, `JmaFilters`, which starts at all zeros like the empty lists.
    The loop reads `f88List` but never appends to it; the model runs the
    loop both as written (`f88` kept at its initial 0) and with each bar's
    `f88` recorded. */
module JmaRsx {
  import opened Series
  import opened Signals
  import opened Stock

  /** The last value of `f8List`, `f28List`, ..., `f80List`, `f88List` and
      `f90_List`; 0 for a list nothing has been appended to. */
  datatype JmaFilters = JmaFilters(f8: real, f28: real, f30: real, f38: real, f40: real, f48: real, f50: real,
                                   f58: real, f60: real, f68: real, f70: real, f78: real, f80: real,
                                   f88: real, f90_: real)

  /** The state before the first bar: every list is empty. */
  const NoFilters := JmaFilters(0.0, 0.0, 0.0, 0.0, 0.0, 0.0, 0.0, 0.0, 0.0, 0.0, 0.0, 0.0, 0.0, 0.0, 0.0)

  /** `f18 = 3 / (length + 2)`, the filters' smoothing factor. */
  function JmaRate(length: int): real
    requires length + 2 != 0
  {
    3.0 / ((length + 2) as real)
  }

  /** `f90_`: the warm-up counter. It starts at 1 and otherwise becomes one
      more than the smaller of the previous `f88` and `f90_`. */
  function JmaCounter(s: JmaFilters): real {
    if s.f90_ == 0.0 then 1.0 else if s.f88 <= s.f90_ then s.f88 + 1.0 else s.f90_ + 1.0
  }

  /** `f88`: the warm-up period, `length - 1` on the first bar when that is
      at least 5, and 5 otherwise. */
  function JmaPeriod(s: JmaFilters, length: int): real {
    if s.f90_ == 0.0 && length - 1 >= 5 then (length - 1) as real else 5.0
  }

  /** `f88 < f90`: whether the bar is past the warm-up and RSX follows the
      filters; `moved` is `f8 != f10`, a price change since the previous bar. */
  predicate JmaGate(s: JmaFilters, length: int, moved: bool) {
    var f90_ := JmaCounter(s);
    var f88 := JmaPeriod(s, length);
    var f0 := if f88 >= f90_ && moved then 1.0 else 0.0;
    var f90 := if f88 == f90_ && f0 == 0.0 then 0.0 else f90_;
    f88 < f90
  }

  /** The first filter of a pair: `f20 * prev + f18 * x`. */
  function JmaSmooth(f18: real, f20: real, prev: real, x: real): real {
    f20 * prev + f18 * x
  }

  /** The second filter of a pair: `f18 * x + f20 * prev`. */
  function JmaFollow(f18: real, f20: real, x: real, prev: real): real {
    f18 * x + f20 * prev
  }

  /** A pair's output, `first * 1.5 - second * 0.5`. */
  function JmaLead(first: real, second: real): real {
    first * 1.5 - second * 0.5
  }

  /** The filter state after one bar with price `currentValue`. With
      `recordsF88` false the last `f88` stays what it was, as in the loop as
      written; with it true the bar's `f88` becomes the last one. */
  function JmaAdvance(s: JmaFilters, currentValue: real, f18: real, f20: real, length: int, recordsF88: bool): JmaFilters {
    var f8 := 100.0 * currentValue;
    var v8 := f8 - s.f8;
    var f28 := JmaSmooth(f18, f20, s.f28, v8);
    var f30 := JmaFollow(f18, f20, f28, s.f30);
    var f38 := JmaSmooth(f18, f20, s.f38, JmaLead(f28, f30));
    var f40 := JmaFollow(f18, f20, f38, s.f40);
    var f48 := JmaSmooth(f18, f20, s.f48, JmaLead(f38, f40));
    var f50 := JmaFollow(f18, f20, f48, s.f50);
    var f58 := JmaSmooth(f18, f20, s.f58, Abs(v8));
    var f60 := JmaFollow(f18, f20, f58, s.f60);
    var f68 := JmaSmooth(f18, f20, s.f68, JmaLead(f58, f60));
    var f70 := JmaFollow(f18, f20, f68, s.f70);
    var f78 := JmaSmooth(f18, f20, s.f78, JmaLead(f68, f70));
    var f80 := JmaFollow(f18, f20, f78, s.f80);
    JmaFilters(f8, f28, f30, f38, f40, f48, f50, f58, f60, f68, f70, f78, f80,
               if recordsF88 then JmaPeriod(s, length) else s.f88, JmaCounter(s))
  }

  /** `v14`: the output of the price-change cascade. */
  function JmaMomentum(t: JmaFilters): real {
    JmaLead(t.f48, t.f50)
  }

  /** `v20`: the output of the absolute-change cascade. */
  function JmaRange(t: JmaFilters): real {
    JmaLead(t.f78, t.f80)
  }

  /** The bar's RSX from the state before it (`s`) and after it (`t`): the
      ratio `(v14 / v20 + 1) * 50` clamped to [0, 100] past the warm-up when
      `v20 > 0`, and 50 otherwise. */
  function JmaOutput(s: JmaFilters, t: JmaFilters, length: int): (r: real)
    ensures 0.0 <= r <= 100.0
    ensures !JmaGate(s, length, t.f8 != s.f8) || JmaRange(t) <= 0.0 ==> r == 50.0
    ensures JmaGate(s, length, t.f8 != s.f8) && JmaRange(t) > 0.0 ==>
              r == MinOrMax((JmaMomentum(t) / JmaRange(t) + 1.0) * 50.0, 100.0, 0.0)
  {
    var v14 := JmaMomentum(t);
    var v20 := JmaRange(t);
    var v4_ := if JmaGate(s, length, t.f8 != s.f8) && v20 > 0.0 then MinOrMax((v14 / v20 + 1.0) * 50.0, 100.0, 0.0)
               else 50.0;
    if v4_ > 100.0 then 100.0 else if v4_ < 0.0 then 0.0 else v4_
  }

  /** The filter state after bars 0 .. n - 1. */
  function JmaFiltersAfter(inp: Inputs, f18: real, f20: real, length: int, recordsF88: bool, n: nat): JmaFilters {
    Iterate((s: JmaFilters, k: nat) => JmaAdvance(s, At(inp.input, k), f18, f20, length, recordsF88), NoFilters, n)
  }

  /** Bar k's RSX. */
  function JmaRsxAt(inp: Inputs, f18: real, f20: real, length: int, recordsF88: bool, k: nat): real {
    var s := JmaFiltersAfter(inp, f18, f20, length, recordsF88, k);
    JmaOutput(s, JmaAdvance(s, At(inp.input, k), f18, f20, length, recordsF88), length)
  }

  function JmaRsxSeries(inp: Inputs, f18: real, f20: real, length: int, recordsF88: bool, n: nat): (r: seq<real>)
    ensures |r| == n
  {
    Tabulate((k: nat) => JmaRsxAt(inp, f18, f20, length, recordsF88, k), n)
  }

  lemma JmaFiltersStep(inp: Inputs, f18: real, f20: real, length: int, recordsF88: bool, n: nat)
    ensures JmaFiltersAfter(inp, f18, f20, length, recordsF88, n + 1)
         == JmaAdvance(JmaFiltersAfter(inp, f18, f20, length, recordsF88, n), At(inp.input, n), f18, f20, length, recordsF88)
  {
    IterateStep((s: JmaFilters, k: nat) => JmaAdvance(s, At(inp.input, k), f18, f20, length, recordsF88), NoFilters, n);
  }

  // ---------------------------------------------------------------------------
  // The loop as written: f88List is never appended to

  /** As written, the last `f88` is the empty list's 0 on every bar, so the
      counter `f90_` is 0 before the first bar and 1 after every bar. */
  lemma {:induction false} JmaCountersAsWritten(inp: Inputs, f18: real, f20: real, length: int, n: nat)
    ensures JmaFiltersAfter(inp, f18, f20, length, false, n).f88 == 0.0
    ensures JmaFiltersAfter(inp, f18, f20, length, false, n).f90_ == if n == 0 then 0.0 else 1.0
  {
    if n > 0 {
      JmaCountersAsWritten(inp, f18, f20, length, n - 1);
      JmaFiltersStep(inp, f18, f20, length, false, n - 1);
    }
  }

  /** With a last `f88` of 0 and a counter of 0 or 1, the counter becomes 1,
      the period is at least 5, and the warm-up test fails. */
  lemma JmaGateClosedAsWritten(s: JmaFilters, length: int, moved: bool)
    requires s.f88 == 0.0 && (s.f90_ == 0.0 || s.f90_ == 1.0)
    ensures JmaCounter(s) == 1.0 && JmaPeriod(s, length) >= 5.0
    ensures !JmaGate(s, length, moved)
  { }

  /** As written, the RSX is 50 on every bar, whatever the prices and the length. */
  lemma JmaRsxIsFifty(inp: Inputs, f18: real, f20: real, length: int, k: nat)
    ensures JmaRsxAt(inp, f18, f20, length, false, k) == 50.0
  {
    JmaCountersAsWritten(inp, f18, f20, length, k);
    var s := JmaFiltersAfter(inp, f18, f20, length, false, k);
    var t := JmaAdvance(s, At(inp.input, k), f18, f20, length, false);
    JmaGateClosedAsWritten(s, length, t.f8 != s.f8);
  }

  lemma JmaRsxSeriesIsFifty(inp: Inputs, f18: real, f20: real, length: int, n: nat, k: nat)
    requires k < n
    ensures JmaRsxSeries(inp, f18, f20, length, false, n)[k] == 50.0
  {
    TabulateAt((j: nat) => JmaRsxAt(inp, f18, f20, length, false, j), n, k);
    JmaRsxIsFifty(inp, f18, f20, length, k);
  }

  /** A rising price series shows it: prices 1, 2, 3 give RSX 50, 50, 50. */
  lemma JmaRisingPricesGiveFifty(inp: Inputs, length: int)
    requires length + 2 != 0
    requires |inp.input| == 3 && inp.input[0] == 1.0 && inp.input[1] == 2.0 && inp.input[2] == 3.0
    ensures JmaRsxSeries(inp, JmaRate(length), 1.0 - JmaRate(length), length, false, 3) == [50.0, 50.0, 50.0]
  {
    JmaRsxSeriesIsFifty(inp, JmaRate(length), 1.0 - JmaRate(length), length, 3, 0);
    JmaRsxSeriesIsFifty(inp, JmaRate(length), 1.0 - JmaRate(length), length, 3, 1);
    JmaRsxSeriesIsFifty(inp, JmaRate(length), 1.0 - JmaRate(length), length, 3, 2);
  }

  // ---------------------------------------------------------------------------
  // The loop with each bar's f88 recorded

  /** With `f88` recorded, the last `f88` is the first bar's period after one
      bar and 5 after that, and the counter counts the bars up to 6. */
  lemma {:induction false} JmaCountersRecorded(inp: Inputs, f18: real, f20: real, length: int, n: nat)
    ensures var s := JmaFiltersAfter(inp, f18, f20, length, true, n);
            && s.f88 == (if n == 0 then 0.0 else if n == 1 && length - 1 >= 5 then (length - 1) as real else 5.0)
            && s.f90_ == (if n <= 6 then n as real else 6.0)
  {
    if n > 0 {
      JmaCountersRecorded(inp, f18, f20, length, n - 1);
      JmaFiltersStep(inp, f18, f20, length, true, n - 1);
    }
  }

  /** With `f88` recorded, bar k is past the warm-up exactly when k >= 5. */
  lemma JmaGateRecorded(inp: Inputs, f18: real, f20: real, length: int, k: nat, moved: bool)
    ensures JmaGate(JmaFiltersAfter(inp, f18, f20, length, true, k), length, moved) <==> k >= 5
  {
    JmaCountersRecorded(inp, f18, f20, length, k);
  }

  /** With `f88` recorded, from bar 5 on the RSX follows the filters: it is
      the clamped ratio `(v14 / v20 + 1) * 50` whenever `v20 > 0`. */
  lemma JmaRsxRecorded(inp: Inputs, f18: real, f20: real, length: int, k: nat)
    requires k >= 5
    ensures var s := JmaFiltersAfter(inp, f18, f20, length, true, k);
            var t := JmaAdvance(s, At(inp.input, k), f18, f20, length, true);
            JmaRange(t) > 0.0 ==>
              JmaRsxAt(inp, f18, f20, length, true, k) == MinOrMax((JmaMomentum(t) / JmaRange(t) + 1.0) * 50.0, 100.0, 0.0)
  {
    var s := JmaFiltersAfter(inp, f18, f20, length, true, k);
    var t := JmaAdvance(s, At(inp.input, k), f18, f20, length, true);
    JmaGateRecorded(inp, f18, f20, length, k, t.f8 != s.f8);
  }

  // ---------------------------------------------------------------------------
  // The loop

  /** One bar: the filter state after it and its RSX. */
  method JmaRsxBar(s: JmaFilters, currentValue: real, f18: real, f20: real, length: int, recordsF88: bool)
    returns (t: JmaFilters, rsx: real)
    ensures t == JmaAdvance(s, currentValue, f18, f20, length, recordsF88)
    ensures rsx == JmaOutput(s, t, length)
  {
    var prevF8 := s.f8;
    var f8 := 100.0 * currentValue;
    var f10 := prevF8;
    var v8 := f8 - f10;
    var f28 := f20 * s.f28 + f18 * v8;
    var f30 := f18 * f28 + f20 * s.f30;
    var vC := f28 * 1.5 - f30 * 0.5;
    var f38 := f20 * s.f38 + f18 * vC;
    var f40 := f18 * f38 + f20 * s.f40;
    var v10 := f38 * 1.5 - f40 * 0.5;
    var f48 := f20 * s.f48 + f18 * v10;
    var f50 := f18 * f48 + f20 * s.f50;
    var v14 := f48 * 1.5 - f50 * 0.5;
    var f58 := f20 * s.f58 + f18 * Abs(v8);
    var f60 := f18 * f58 + f20 * s.f60;
    var v18 := f58 * 1.5 - f60 * 0.5;
    var f68 := f20 * s.f68 + f18 * v18;
    var f70 := f18 * f68 + f20 * s.f70;
    var v1C := f68 * 1.5 - f70 * 0.5;
    var f78 := f20 * s.f78 + f18 * v1C;
    var f80 := f18 * f78 + f20 * s.f80;
    var v20 := f78 * 1.5 - f80 * 0.5;

    var prevF88 := s.f88;
    var prevF90_ := s.f90_;
    var f90_ := if prevF90_ == 0.0 then 1.0 else if prevF88 <= prevF90_ then prevF88 + 1.0 else prevF90_ + 1.0;
    var f88 := if prevF90_ == 0.0 && length - 1 >= 5 then (length - 1) as real else 5.0;
    var f0 := if f88 >= f90_ && f8 != f10 then 1.0 else 0.0;
    var f90 := if f88 == f90_ && f0 == 0.0 then 0.0 else f90_;
    var v4_ := if f88 < f90 && v20 > 0.0 then MinOrMax((v14 / v20 + 1.0) * 50.0, 100.0, 0.0) else 50.0;
    rsx := if v4_ > 100.0 then 100.0 else if v4_ < 0.0 then 0.0 else v4_;

    t := JmaFilters(f8, f28, f30, f38, f40, f48, f50, f58, f60, f68, f70, f78, f80,
                    if recordsF88 then f88 else prevF88, f90_);
  }

  /** The per-bar loop over the first `count` bars. */
  method JmaRsxLines(inp: Inputs, f18: real, f20: real, length: int, recordsF88: bool, rsi: RsiClassifier, count: nat)
    returns (rsxList: seq<real>, signalsList: seq<Signal>)
    ensures rsxList == JmaRsxSeries(inp, f18, f20, length, recordsF88, count)
    ensures signalsList == RsiSignals(rsi, rsxList, 70.0, 30.0, count)
  {
    var filters := NoFilters;
    rsxList, signalsList := [], [];
    for i := 0 to count
      invariant filters == JmaFiltersAfter(inp, f18, f20, length, recordsF88, i)
      invariant rsxList == JmaRsxSeries(inp, f18, f20, length, recordsF88, i)
      invariant signalsList == RsiSignals(rsi, rsxList, 70.0, 30.0, i)
    {
      var currentValue := At(inp.input, i);
      var prevRsx1 := At(rsxList, i - 1);
      var prevRsx2 := At(rsxList, i - 2);
      var next, rsx := JmaRsxBar(filters, currentValue, f18, f20, length, recordsF88);
      var signal := RsiSignal(rsi, rsx, prevRsx1, prevRsx2, 70.0, 30.0);
      JmaFiltersStep(inp, f18, f20, length, recordsF88, i);
      TabulateStep((k: nat) => JmaRsxAt(inp, f18, f20, length, recordsF88, k), i);
      RsiSignalsAppend(rsi, rsxList, rsx, 70.0, 30.0, i);
      filters := next;
      rsxList := rsxList + [rsx];
      signalsList := signalsList + [signal];
    }
  }

  /** `f18 = 3 / (length + 2)` raises before any bar when `length` is -2. */
  method JmaRsxCloneWith(stockData: StockData, inp: Inputs, rsi: RsiClassifier, length: int, recordsF88: bool)
    returns (outcome: Outcome)
    modifies stockData
    ensures outcome == if length + 2 == 0 then Fail(DivideByZero) else Pass
    ensures outcome.Fail? ==> unchanged(stockData)
    ensures outcome.Pass? ==>
              && length + 2 != 0
              && var rsx := JmaRsxSeries(inp, JmaRate(length), 1.0 - JmaRate(length), length, recordsF88, stockData.Count);
              && stockData.OutputValues == map["Rsx" := rsx]
              && stockData.SignalsList == RsiSignals(rsi, rsx, 70.0, 30.0, stockData.Count)
              && stockData.CustomValuesList == rsx
              && stockData.IndicatorName == Indicator.JmaRsxClone
  {
    if length + 2 == 0 {
      return Fail(DivideByZero);
    }
    var f18 := JmaRate(length);
    var f20 := 1.0 - f18;
    var rsxList, signalsList := JmaRsxLines(inp, f18, f20, length, recordsF88, rsi, stockData.Count);
    stockData.OutputValues := map["Rsx" := rsxList];
    stockData.SignalsList := signalsList;
    stockData.CustomValuesList := rsxList;
    stockData.IndicatorName := Indicator.JmaRsxClone;
    outcome := Pass;
  }

  /** The JMA RSX clone as written: its RSX output is 50 on every bar. */
  method CalculateJmaRsxClone(stockData: StockData, inp: Inputs, rsi: RsiClassifier, length: int)
    returns (outcome: Outcome)
    modifies stockData
    ensures outcome == if length + 2 == 0 then Fail(DivideByZero) else Pass
    ensures outcome.Fail? ==> unchanged(stockData)
    ensures outcome.Pass? ==>
              && stockData.OutputValues.Keys == {"Rsx"}
              && |stockData.OutputValues["Rsx"]| == stockData.Count
              && (forall k :: 0 <= k < stockData.Count ==> stockData.OutputValues["Rsx"][k] == 50.0)
              && stockData.CustomValuesList == stockData.OutputValues["Rsx"]
              && stockData.SignalsList == RsiSignals(rsi, stockData.CustomValuesList, 70.0, 30.0, stockData.Count)
              && stockData.IndicatorName == Indicator.JmaRsxClone
  {
    outcome := JmaRsxCloneWith(stockData, inp, rsi, length, false);
    if outcome.Pass? {
      forall k | 0 <= k < stockData.Count
        ensures stockData.OutputValues["Rsx"][k] == 50.0
      {
        JmaRsxSeriesIsFifty(inp, JmaRate(length), 1.0 - JmaRate(length), length, stockData.Count, k);
      }
    }
  }

  /** The JMA RSX clone with each bar's `f88` appended to `f88List`: past the
      first five bars its RSX follows the filters. */
  method CalculateJmaRsxCloneCorrected(stockData: StockData, inp: Inputs, rsi: RsiClassifier, length: int)
    returns (outcome: Outcome)
    modifies stockData
    ensures outcome == if length + 2 == 0 then Fail(DivideByZero) else Pass
    ensures outcome.Fail? ==> unchanged(stockData)
    ensures outcome.Pass? ==>
              && length + 2 != 0
              && var rsx := JmaRsxSeries(inp, JmaRate(length), 1.0 - JmaRate(length), length, true, stockData.Count);
              && stockData.OutputValues == map["Rsx" := rsx]
              && stockData.SignalsList == RsiSignals(rsi, rsx, 70.0, 30.0, stockData.Count)
              && stockData.CustomValuesList == rsx
              && stockData.IndicatorName == Indicator.JmaRsxClone
  {
    outcome := JmaRsxCloneWith(stockData, inp, rsi, length, true);
  }
}
