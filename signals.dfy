/**
 * The signal evaluator of one pair's analysis panel: the H4 trend from price
 * against the 50-period EMA, the H1 RSI windows, the confirmation candles, and
 * the choice between a confirmed Buy, a confirmed Sell and Wait with a hint.
 */
module Signals {
  import opened Wrappers

  datatype Trend = Uptrend | Downtrend

  datatype Direction = Buy | Sell {
    /** The label the journal stores in its Direction column. */
    function Label(): string {
      match this
      case Buy => "Buy"
      case Sell => "Sell"
    }
  }

  /** One pair's indicator readings as entered in its panel. */
  datatype Snapshot = Snapshot(
    currentPrice: real,
    ema50Price: real,
    rsi14: real,
    rawAtr: real,
    bullishCandle: bool,
    bearishCandle: bool)

  /** The six flags the panel derives from a snapshot. */
  datatype Checklist = Checklist(
    buyTrendOk: bool, buyRsiOk: bool, buyCandleOk: bool,
    sellTrendOk: bool, sellRsiOk: bool, sellCandleOk: bool)

  /** The guidance shown under a Wait. */
  datatype Hint =
    | RsiNotInBuyZone       // uptrend, waiting for RSI to pull back into 30-45
    | MissingBullishCandle  // uptrend and pullback, no bullish confirmation yet
    | RsiNotInSellZone      // downtrend, waiting for RSI to rally into 55-70
    | MissingBearishCandle  // downtrend and rally, no bearish confirmation yet
    | NoClearTrend          // price hugging the EMA

  datatype Decision = Confirmed(direction: Direction) | Wait(hint: Option<Hint>)

  /** Price strictly above the EMA is an uptrend; anything else, a tie included, a downtrend. */
  function TrendOf(price: real, ema: real): Trend {
    if price > ema then Uptrend else Downtrend
  }

  /** The buy-side pullback window: above 30, up to and including 45. */
  predicate BuyRsiOk(rsi: real) {
    30.0 < rsi <= 45.0
  }

  /** The sell-side rally window: from 55 included, below 70. */
  predicate SellRsiOk(rsi: real) {
    55.0 <= rsi < 70.0
  }

  /** The checklist; exactly one of the two trend flags holds. */
  function Check(s: Snapshot): (c: Checklist)
    ensures c.buyTrendOk <==> s.currentPrice > s.ema50Price
    ensures c.sellTrendOk <==> !c.buyTrendOk
    ensures c.buyRsiOk <==> 30.0 < s.rsi14 <= 45.0
    ensures c.sellRsiOk <==> 55.0 <= s.rsi14 < 70.0
    ensures !(c.buyRsiOk && c.sellRsiOk)
    ensures c.buyCandleOk == s.bullishCandle && c.sellCandleOk == s.bearishCandle
  {
    var trend := TrendOf(s.currentPrice, s.ema50Price);
    Checklist(
      trend == Uptrend, BuyRsiOk(s.rsi14), s.bullishCandle,
      trend == Downtrend, SellRsiOk(s.rsi14), s.bearishCandle)
  }

  /**
   * The hint of the Wait branch: along the trend's side, the RSI window if it
   * is not met, else the missing candle; no hint when that side is complete.
   */
  function WaitHint(c: Checklist): Option<Hint> {
    if c.buyTrendOk then
      if !c.buyRsiOk then Some(RsiNotInBuyZone)
      else if !c.buyCandleOk then Some(MissingBullishCandle)
      else None
    else if c.sellTrendOk then
      if !c.sellRsiOk then Some(RsiNotInSellZone)
      else if !c.sellCandleOk then Some(MissingBearishCandle)
      else None
    else Some(NoClearTrend)
  }

  /**
   * The panel's decision, stated on the raw readings: Buy exactly when the
   * price is above the EMA, the RSI is in (30, 45] and a bullish candle is
   * seen; Sell exactly when the price is at or below the EMA, the RSI is in
   * [55, 70) and a bearish candle is seen; otherwise Wait, always with a hint
   * on the trend's side and never "no clear trend".
   */
  function Evaluate(s: Snapshot): (d: Decision)
    ensures d == Confirmed(Buy) <==>
      s.currentPrice > s.ema50Price && 30.0 < s.rsi14 <= 45.0 && s.bullishCandle
    ensures d == Confirmed(Sell) <==>
      s.currentPrice <= s.ema50Price && 55.0 <= s.rsi14 < 70.0 && s.bearishCandle
    ensures d.Wait? && s.currentPrice > s.ema50Price ==>
      d.hint == Some(if 30.0 < s.rsi14 <= 45.0 then MissingBullishCandle else RsiNotInBuyZone)
    ensures d.Wait? && s.currentPrice <= s.ema50Price ==>
      d.hint == Some(if 55.0 <= s.rsi14 < 70.0 then MissingBearishCandle else RsiNotInSellZone)
  {
    var c := Check(s);
    if c.buyTrendOk && c.buyRsiOk && c.buyCandleOk then Confirmed(Buy)
    else if c.sellTrendOk && c.sellRsiOk && c.sellCandleOk then Confirmed(Sell)
    else Wait(WaitHint(c))
  }

  /** A Wait always carries one of the four directional hints. */
  lemma WaitHintAlwaysChosen(s: Snapshot)
    requires Evaluate(s).Wait?
    ensures Evaluate(s).hint.Some?
    ensures Evaluate(s).hint.value != NoClearTrend
  {
  }

  /** The two RSI windows share no value, so Buy and Sell never both qualify. */
  lemma BuyAndSellExclusive(s: Snapshot)
    ensures !(Check(s).buyTrendOk && Check(s).buyRsiOk && Check(s).buyCandleOk &&
              Check(s).sellTrendOk && Check(s).sellRsiOk && Check(s).sellCandleOk)
  {
  }

  /** The half-open window edges. */
  lemma RsiBoundaries()
    ensures !BuyRsiOk(30.0) && BuyRsiOk(45.0) && !BuyRsiOk(45.0000001)
    ensures SellRsiOk(55.0) && !SellRsiOk(54.9999) && !SellRsiOk(70.0)
  {
  }

  /** A price equal to its EMA counts as a downtrend, so such a snapshot is never a Buy. */
  lemma TieIsDowntrend(s: Snapshot)
    requires s.currentPrice == s.ema50Price
    ensures TrendOf(s.currentPrice, s.ema50Price) == Downtrend
    ensures Check(s).sellTrendOk && Evaluate(s) != Confirmed(Buy)
  {
  }
}
