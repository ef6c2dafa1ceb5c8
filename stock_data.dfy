/** The context every `Calculate*` method reads from and writes back
    into (`StockData`), the names it records, and the error outcomes of the
    methods that can throw. */
module Stock {
  import opened Signals

  /** The members of the `IndicatorName` enumeration (here `Indicator`) that this model's methods record. */
  datatype Indicator =
    | None
    | MoneyFlowIndex
    | KlingerVolumeOscillator
    | OnBalanceVolume
    | NegativeVolumeIndex
    | PositiveVolumeIndex
    | BalanceOfPower
    | RateOfChange
    | AccumulationDistributionLine
    | IchimokuCloud
    | AlligatorIndex
    | GatorOscillator
    | UltimateOscillator
    | VortexIndicator
    | SuperTrend
    | WilliamsR
    | StochasticOscillator
    | AroonOscillator
    | AbsoluteStrengthIndex
    | AnchoredMomentum
    | AccumulativeSwingIndex
    | AbsoluteStrengthMTFIndicator
    | JmaRsxClone
    | ZweigMarketBreadthIndicator

  /** The five series `GetInputValuesList` hands a formula: the selected input
      price, high, low, open and volume. */
  datatype Inputs = Inputs(input: seq<real>, high: seq<real>, low: seq<real>, open: seq<real>, volume: seq<real>)

  /** `GetMovingAverageList(stockData, maType, length, list)` for a fixed
      `stockData` and `maType`: a function of the length and the list. */
  type MovingAverage = (int, seq<real>) -> seq<real>

  /** `GetMaxAndMinValuesList(highList, lowList, length)`: the highest-high and
      lowest-low lists, not part of this model. */
  type MaxAndMinOfTwo = (seq<real>, seq<real>, int) -> (seq<real>, seq<real>)

  /** `GetMaxAndMinValuesList(list, length)`: the highest and lowest lists of one series. */
  type MaxAndMinOfOne = (seq<real>, int) -> (seq<real>, seq<real>)

  /** `CalculateEMA(value, prevEma, length)`: one step of an exponential moving
      average, not part of this model. */
  type EmaStep = (real, real, int) -> real

  /** The one-argument integer overload `MinOrMax(value)`, whose bounds are
      not part of this model. */
  type IntClamp = int -> int

  /** The .NET exceptions the modelled formulas can raise. */
  datatype Failure =
    | DivideByZero          // DivideByZeroException from a decimal division
    | EmptySequence         // InvalidOperationException from Average() of no elements
    | KeyNotFound(key: string)  // KeyNotFoundException from a dictionary lookup

  /** Normal return, or the exception that escaped. */
  datatype Outcome = Pass | Fail(error: Failure)

  /** The context: the immutable bar count and close prices it was built from,
      and the four fields every indicator overwrites. */
  class StockData {
    const Count: nat
    const ClosePrices: seq<real>
    var OutputValues: map<string, seq<real>>
    var SignalsList: seq<Signal>
    var CustomValuesList: seq<real>
    var IndicatorName: Indicator

    constructor (count: nat, closePrices: seq<real>)
      ensures Count == count && ClosePrices == closePrices
      ensures OutputValues == map[] && SignalsList == [] && CustomValuesList == []
      ensures IndicatorName == Indicator.None
    {
      Count := count;
      ClosePrices := closePrices;
      OutputValues := map[];
      SignalsList := [];
      CustomValuesList := [];
      IndicatorName := Indicator.None;
    }
  }
}
