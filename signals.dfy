/** The per-bar signal sequences the indicators emit. The classifiers
    (`GetCompareSignal`, `GetRsiSignal`, `GetBullishBearishSignal`) are not part
    of this model: each is a function parameter, so what is stated here is
    WHICH arguments every bar hands to the classifier, including the
    zero defaults before the series start. */
module Signals {
  import opened Series

  /** The signal taxonomy; the classifiers that choose among these are parameters. */
  datatype Signal = None | Bullish | Bearish | Overbought | Oversold | VolatilityExpansion

  /** `GetCompareSignal(current, previous)`. */
  type CompareClassifier = (real, real) -> Signal

  /** `GetRsiSignal(currentDelta, previousDelta, current, previous, overbought, oversold)`. */
  type RsiClassifier = (real, real, real, real, real, real) -> Signal

  /** `GetBullishBearishSignal(...)` with four deltas. */
  type BandClassifier = (real, real, real, real) -> Signal

  // ---------------------------------------------------------------------------
  // One call of a classifier, as the loops make it from the values they have
  // just read (the differences are taken here, so a loop and the signal
  // sequence below make the same call).

  /** `GetCompareSignal(x - y, prevX - prevY)`. */
  function CrossSignal(compare: CompareClassifier, x: real, prevX: real, y: real, prevY: real): Signal {
    compare(x - y, prevX - prevY)
  }

  /** `GetCompareSignal(x - prevX1, prevX1 - prevX2)`. */
  function MomentumSignal(compare: CompareClassifier, x: real, prevX1: real, prevX2: real): Signal {
    compare(x - prevX1, prevX1 - prevX2)
  }

  /** `GetRsiSignal(x - prevX1, prevX1 - prevX2, x, prevX1, overbought, oversold)`. */
  function RsiSignal(rsi: RsiClassifier, x: real, prevX1: real, prevX2: real, overbought: real, oversold: real): Signal {
    rsi(x - prevX1, prevX1 - prevX2, x, prevX1, overbought, oversold)
  }

  /** `GetRsiSignal(x - y, prevX - prevY, x, prevX, overbought, oversold)`. */
  function RsiCrossSignal(rsi: RsiClassifier, x: real, prevX: real, y: real, prevY: real,
                          overbought: real, oversold: real): Signal {
    rsi(x - y, prevX - prevY, x, prevX, overbought, oversold)
  }

  /** The alligator's call: lips against the larger and the smaller of jaw and teeth. */
  function BandSignal(band: BandClassifier, lips: real, prevLips: real, jaw: real, prevJaw: real,
                      teeth: real, prevTeeth: real): Signal {
    band(lips - Max(jaw, teeth), prevLips - Max(prevJaw, prevTeeth),
         lips - Min(jaw, teeth), prevLips - Min(prevJaw, prevTeeth))
  }

  // ---------------------------------------------------------------------------
  // The signal sequences over n bars, every value read with `At` (so the
  // previous values are 0 at bar 0).

  /** Bar i: `x` against `y`. */
  function CrossSignals(compare: CompareClassifier, x: seq<real>, y: seq<real>, n: nat): (r: seq<Signal>)
    ensures |r| == n
  {
    if n == 0 then []
    else CrossSignals(compare, x, y, n - 1) + [CrossSignal(compare, At(x, n - 1), At(x, n - 2), At(y, n - 1), At(y, n - 2))]
  }

  /** Bar i: `GetCompareSignal(x, prevX)`. */
  function TrendSignals(compare: CompareClassifier, x: seq<real>, n: nat): (r: seq<Signal>)
    ensures |r| == n
  {
    if n == 0 then [] else TrendSignals(compare, x, n - 1) + [compare(At(x, n - 1), At(x, n - 2))]
  }

  /** Bar i: the change of `x` against its previous change. */
  function MomentumSignals(compare: CompareClassifier, x: seq<real>, n: nat): (r: seq<Signal>)
    ensures |r| == n
  {
    if n == 0 then []
    else MomentumSignals(compare, x, n - 1) + [MomentumSignal(compare, At(x, n - 1), At(x, n - 2), At(x, n - 3))]
  }

  /** Bar i: `x` against the overbought and oversold levels. */
  function RsiSignals(rsi: RsiClassifier, x: seq<real>, overbought: real, oversold: real, n: nat): (r: seq<Signal>)
    ensures |r| == n
  {
    if n == 0 then []
    else RsiSignals(rsi, x, overbought, oversold, n - 1)
         + [RsiSignal(rsi, At(x, n - 1), At(x, n - 2), At(x, n - 3), overbought, oversold)]
  }

  /** Bar i: `x` against `y` and the two levels. */
  function RsiCrossSignals(rsi: RsiClassifier, x: seq<real>, y: seq<real>, overbought: real, oversold: real, n: nat)
    : (r: seq<Signal>)
    ensures |r| == n
  {
    if n == 0 then []
    else RsiCrossSignals(rsi, x, y, overbought, oversold, n - 1)
         + [RsiCrossSignal(rsi, At(x, n - 1), At(x, n - 2), At(y, n - 1), At(y, n - 2), overbought, oversold)]
  }

  /** Bar i of the alligator. */
  function BandSignals(band: BandClassifier, lips: seq<real>, jaw: seq<real>, teeth: seq<real>, n: nat)
    : (r: seq<Signal>)
    ensures |r| == n
  {
    if n == 0 then []
    else
      BandSignals(band, lips, jaw, teeth, n - 1)
      + [BandSignal(band, At(lips, n - 1), At(lips, n - 2), At(jaw, n - 1), At(jaw, n - 2), At(teeth, n - 1), At(teeth, n - 2))]
  }

  // ---------------------------------------------------------------------------
  // Lemmas: what bar k is handed, and that a signal, once emitted, depends
  // only on bars already seen (so a series that grows later does not change it).

  lemma {:induction false} CrossSignalsAt(compare: CompareClassifier, x: seq<real>, y: seq<real>, n: nat, k: int)
    requires 0 <= k < n
    ensures CrossSignals(compare, x, y, n)[k]
         == compare(At(x, k) - At(y, k), At(x, k - 1) - At(y, k - 1))
  {
    if k < n - 1 {
      CrossSignalsAt(compare, x, y, n - 1, k);
    }
  }

  lemma {:induction false} CrossSignalsExtend(compare: CompareClassifier, x: seq<real>, y: seq<real>,
                                              x2: seq<real>, y2: seq<real>, n: nat)
    requires x <= x2 && y <= y2 && n <= |x| && n <= |y|
    ensures CrossSignals(compare, x2, y2, n) == CrossSignals(compare, x, y, n)
  {
    if n > 0 {
      CrossSignalsExtend(compare, x, y, x2, y2, n - 1);
    }
  }

  lemma {:induction false} CrossSignalsExtendRight(compare: CompareClassifier, x: seq<real>, y: seq<real>,
                                                   y2: seq<real>, n: nat)
    requires y <= y2 && n <= |y|
    ensures CrossSignals(compare, x, y2, n) == CrossSignals(compare, x, y, n)
  {
    if n > 0 {
      CrossSignalsExtendRight(compare, x, y, y2, n - 1);
    }
  }

  lemma {:induction false} TrendSignalsExtend(compare: CompareClassifier, x: seq<real>, x2: seq<real>, n: nat)
    requires x <= x2 && n <= |x|
    ensures TrendSignals(compare, x2, n) == TrendSignals(compare, x, n)
  {
    if n > 0 {
      TrendSignalsExtend(compare, x, x2, n - 1);
    }
  }

  lemma {:induction false} MomentumSignalsExtend(compare: CompareClassifier, x: seq<real>, x2: seq<real>, n: nat)
    requires x <= x2 && n <= |x|
    ensures MomentumSignals(compare, x2, n) == MomentumSignals(compare, x, n)
  {
    if n > 0 {
      MomentumSignalsExtend(compare, x, x2, n - 1);
    }
  }

  lemma {:induction false} RsiSignalsExtend(rsi: RsiClassifier, x: seq<real>, x2: seq<real>,
                                            overbought: real, oversold: real, n: nat)
    requires x <= x2 && n <= |x|
    ensures RsiSignals(rsi, x2, overbought, oversold, n) == RsiSignals(rsi, x, overbought, oversold, n)
  {
    if n > 0 {
      RsiSignalsExtend(rsi, x, x2, overbought, oversold, n - 1);
    }
  }

  lemma {:induction false} RsiCrossSignalsExtend(rsi: RsiClassifier, x: seq<real>, y: seq<real>,
                                                 x2: seq<real>, y2: seq<real>,
                                                 overbought: real, oversold: real, n: nat)
    requires x <= x2 && y <= y2 && n <= |x| && n <= |y|
    ensures RsiCrossSignals(rsi, x2, y2, overbought, oversold, n) == RsiCrossSignals(rsi, x, y, overbought, oversold, n)
  {
    if n > 0 {
      RsiCrossSignalsExtend(rsi, x, y, x2, y2, overbought, oversold, n - 1);
    }
  }

  lemma {:induction false} BandSignalsExtend(band: BandClassifier, lips: seq<real>, jaw: seq<real>, teeth: seq<real>,
                                             lips2: seq<real>, jaw2: seq<real>, teeth2: seq<real>, n: nat)
    requires lips <= lips2 && jaw <= jaw2 && teeth <= teeth2
    requires n <= |lips| && n <= |jaw| && n <= |teeth|
    ensures BandSignals(band, lips2, jaw2, teeth2, n) == BandSignals(band, lips, jaw, teeth, n)
  {
    if n > 0 {
      BandSignalsExtend(band, lips, jaw, teeth, lips2, jaw2, teeth2, n - 1);
    }
  }

  // ---------------------------------------------------------------------------
  // One bar more: the sequence after bar n, stated with the values a loop has
  // in hand at bar n (`At(x, n - 1)` and so on for the values it read before).

  lemma CrossSignalsStep(compare: CompareClassifier, x: seq<real>, y: seq<real>, n: nat)
    ensures CrossSignals(compare, x, y, n + 1)
         == CrossSignals(compare, x, y, n) + [CrossSignal(compare, At(x, n), At(x, n - 1), At(y, n), At(y, n - 1))]
  {
  }

  lemma TrendSignalsAppend(compare: CompareClassifier, x: seq<real>, v: real, n: nat)
    requires |x| == n
    ensures TrendSignals(compare, x + [v], n + 1) == TrendSignals(compare, x, n) + [compare(v, Last(x))]
  {
    var x2 := x + [v];
    TrendSignalsExtend(compare, x, x2, n);
    assert At(x2, n) == v && At(x2, n - 1) == Last(x);
  }

  lemma MomentumSignalsAppend(compare: CompareClassifier, x: seq<real>, v: real, n: nat)
    requires |x| == n
    ensures MomentumSignals(compare, x + [v], n + 1)
         == MomentumSignals(compare, x, n) + [MomentumSignal(compare, v, At(x, n - 1), At(x, n - 2))]
  {
    var x2 := x + [v];
    MomentumSignalsExtend(compare, x, x2, n);
    assert At(x2, n) == v && At(x2, n - 1) == At(x, n - 1) && At(x2, n - 2) == At(x, n - 2);
  }

  lemma RsiSignalsAppend(rsi: RsiClassifier, x: seq<real>, v: real, overbought: real, oversold: real, n: nat)
    requires |x| == n
    ensures RsiSignals(rsi, x + [v], overbought, oversold, n + 1)
         == RsiSignals(rsi, x, overbought, oversold, n) + [RsiSignal(rsi, v, At(x, n - 1), At(x, n - 2), overbought, oversold)]
  {
    var x2 := x + [v];
    RsiSignalsExtend(rsi, x, x2, overbought, oversold, n);
    assert At(x2, n) == v && At(x2, n - 1) == At(x, n - 1) && At(x2, n - 2) == At(x, n - 2);
  }

  /** Both `x` and `y` grow at bar n. */
  lemma CrossSignalsAppend(compare: CompareClassifier, x: seq<real>, y: seq<real>, v: real, w: real, n: nat)
    requires |x| == n && |y| == n
    ensures CrossSignals(compare, x + [v], y + [w], n + 1)
         == CrossSignals(compare, x, y, n) + [CrossSignal(compare, v, Last(x), w, Last(y))]
  {
    var x2, y2 := x + [v], y + [w];
    CrossSignalsExtend(compare, x, y, x2, y2, n);
    assert At(x2, n) == v && At(x2, n - 1) == Last(x) && At(y2, n) == w && At(y2, n - 1) == Last(y);
  }

  /** `x` is fixed (an input series read with `ElementAtOrDefault`) and `y` grows at bar n. */
  lemma CrossSignalsAppendRight(compare: CompareClassifier, x: seq<real>, y: seq<real>, w: real, n: nat)
    requires |y| == n
    ensures CrossSignals(compare, x, y + [w], n + 1)
         == CrossSignals(compare, x, y, n) + [CrossSignal(compare, At(x, n), At(x, n - 1), w, Last(y))]
  {
    var y2 := y + [w];
    CrossSignalsExtendRight(compare, x, y, y2, n);
    assert At(y2, n) == w && At(y2, n - 1) == Last(y);
  }

  /** All three alligator lines grow at bar n. */
  lemma BandSignalsAppend(band: BandClassifier, lips: seq<real>, jaw: seq<real>, teeth: seq<real>,
                          l: real, j: real, t: real, n: nat)
    requires |lips| == n && |jaw| == n && |teeth| == n
    ensures BandSignals(band, lips + [l], jaw + [j], teeth + [t], n + 1)
         == BandSignals(band, lips, jaw, teeth, n) + [BandSignal(band, l, Last(lips), j, Last(jaw), t, Last(teeth))]
  {
    var lips2, jaw2, teeth2 := lips + [l], jaw + [j], teeth + [t];
    BandSignalsExtend(band, lips, jaw, teeth, lips2, jaw2, teeth2, n);
    assert At(lips2, n) == l && At(lips2, n - 1) == Last(lips);
    assert At(jaw2, n) == j && At(jaw2, n - 1) == Last(jaw);
    assert At(teeth2, n) == t && At(teeth2, n - 1) == Last(teeth);
  }

  lemma RsiCrossSignalsStep(rsi: RsiClassifier, x: seq<real>, y: seq<real>, overbought: real, oversold: real, n: nat)
    ensures RsiCrossSignals(rsi, x, y, overbought, oversold, n + 1)
         == RsiCrossSignals(rsi, x, y, overbought, oversold, n)
            + [RsiCrossSignal(rsi, At(x, n), At(x, n - 1), At(y, n), At(y, n - 1), overbought, oversold)]
  {
  }

  lemma BandSignalsStep(band: BandClassifier, lips: seq<real>, jaw: seq<real>, teeth: seq<real>, n: nat)
    ensures BandSignals(band, lips, jaw, teeth, n + 1)
         == BandSignals(band, lips, jaw, teeth, n)
            + [BandSignal(band, At(lips, n), At(lips, n - 1), At(jaw, n), At(jaw, n - 1), At(teeth, n), At(teeth, n - 1))]
  {
  }
}
