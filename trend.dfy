/** `analyze_trend`: classifies the latest candle's indicators.

    The indicators (close, the 5- and 20-period moving averages, RSI, MACD
    and its signal line, the Bollinger bands) are inputs; computing them is
    not part of this model. */
module Trend {

  datatype Indicators = Indicators(
    close: real,
    sma5: real,
    sma20: real,
    rsi: real,
    macd: real,
    macdSignal: real,
    bbUpper: real,
    bbLower: real)

  datatype Leaning = Bullish | Bearish | Neutral

  datatype RsiSignal = Overbought | Oversold | RsiNeutral

  datatype BandPosition = AboveUpper | BelowLower | Middle

  datatype TrendAnalysis = TrendAnalysis(
    trend: Leaning,
    rsi: real,
    rsiSignal: RsiSignal,
    macd: real,
    macdSignal: Leaning,
    bbPosition: BandPosition,
    currentPrice: real,
    sma20: real,
    bbUpper: real,
    bbLower: real)

  const OverboughtLevel: real := 70.0
  const OversoldLevel: real := 30.0

  /** Price and the short average both above the 20-period average is
      bullish; both below is bearish. */
  function TrendOf(x: Indicators): Leaning
  {
    if x.close > x.sma20 && x.sma5 > x.sma20 then Bullish
    else if x.close < x.sma20 && x.sma5 < x.sma20 then Bearish
    else Neutral
  }

  function RsiSignalOf(rsi: real): RsiSignal
  {
    if rsi > OverboughtLevel then Overbought
    else if rsi < OversoldLevel then Oversold
    else RsiNeutral
  }

  function MacdSignalOf(macd: real, signal: real): Leaning
  {
    if macd > signal then Bullish
    else if macd < signal then Bearish
    else Neutral
  }

  function BandPositionOf(close: real, upper: real, lower: real): BandPosition
  {
    if close > upper then AboveUpper
    else if close < lower then BelowLower
    else Middle
  }

  function AnalyzeTrend(x: Indicators): (r: TrendAnalysis)
    ensures r.rsi == x.rsi && r.macd == x.macd
    ensures r.currentPrice == x.close && r.sma20 == x.sma20
    ensures r.bbUpper == x.bbUpper && r.bbLower == x.bbLower
  {
    TrendAnalysis(
      TrendOf(x), x.rsi, RsiSignalOf(x.rsi), x.macd,
      MacdSignalOf(x.macd, x.macdSignal), BandPositionOf(x.close, x.bbUpper, x.bbLower),
      x.close, x.sma20, x.bbUpper, x.bbLower)
  }

  // ---------------------------------------------------------------------
  // Properties

  /** Bullish, neutral, bearish as a scale. */
  function Rank(l: Leaning): int
  {
    match l
    case Bearish => -1
    case Neutral => 0
    case Bullish => 1
  }

  function Opposite(l: Leaning): Leaning
  {
    match l
    case Bullish => Bearish
    case Bearish => Bullish
    case Neutral => Neutral
  }

  /** The same candle seen upside down: every price and MACD value negated,
      the bands swapped and RSI reflected about 50. */
  function Mirror(x: Indicators): Indicators
  {
    Indicators(-x.close, -x.sma5, -x.sma20, 100.0 - x.rsi, -x.macd, -x.macdSignal, -x.bbLower, -x.bbUpper)
  }

  /** The classification treats both directions alike: mirroring the candle
      swaps bullish and bearish, overbought and oversold, above and below
      the bands. */
  lemma AnalyzeTrendMirror(x: Indicators)
    ensures TrendOf(Mirror(x)) == Opposite(TrendOf(x))
    ensures MacdSignalOf(Mirror(x).macd, Mirror(x).macdSignal) == Opposite(MacdSignalOf(x.macd, x.macdSignal))
    ensures RsiSignalOf(Mirror(x).rsi) == (match RsiSignalOf(x.rsi)
      case Overbought => Oversold case Oversold => Overbought case RsiNeutral => RsiNeutral)
    ensures x.bbLower <= x.bbUpper ==>
      BandPositionOf(Mirror(x).close, Mirror(x).bbUpper, Mirror(x).bbLower) == (match BandPositionOf(x.close, x.bbUpper, x.bbLower)
        case AboveUpper => BelowLower case BelowLower => AboveUpper case Middle => Middle)
  {
  }

  function RsiRank(r: RsiSignal): int
  {
    match r
    case Oversold => -1
    case RsiNeutral => 0
    case Overbought => 1
  }

  function BandRank(b: BandPosition): int
  {
    match b
    case BelowLower => -1
    case Middle => 0
    case AboveUpper => 1
  }

  /** A higher close, the averages and bands fixed, never gives a more
      bearish trend or a lower band position. */
  lemma TrendMonotoneInClose(x: Indicators, higher: real)
    requires higher >= x.close
    ensures Rank(TrendOf(x)) <= Rank(TrendOf(x.(close := higher)))
    ensures x.bbLower <= x.bbUpper ==>
      BandRank(BandPositionOf(x.close, x.bbUpper, x.bbLower)) <= BandRank(BandPositionOf(higher, x.bbUpper, x.bbLower))
  {
  }

  /** A higher RSI never gives a lower RSI signal, and a higher MACD never a
      more bearish MACD signal. */
  lemma SignalsMonotone(rsi: real, higherRsi: real, macd: real, higherMacd: real, signal: real)
    requires rsi <= higherRsi && macd <= higherMacd
    ensures RsiRank(RsiSignalOf(rsi)) <= RsiRank(RsiSignalOf(higherRsi))
    ensures Rank(MacdSignalOf(macd, signal)) <= Rank(MacdSignalOf(higherMacd, signal))
  {
  }
}
