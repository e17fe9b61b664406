/**
 * The trade planner: pip arithmetic, risk-based position sizing, and the stop
 * and target levels of a confirmed signal, all over exact reals.
 */
module Planner {
  import opened Wrappers
  import opened Signals

  /** The stop sits this many ATRs from the entry. */
  const SL_ATR_MULTIPLIER: real := 2.0
  /** The target distance is this multiple of the stop distance. */
  const RR_RATIO: real := 1.5

  const JPY_PIP_MULTIPLIER: real := 100.0
  const DEFAULT_PIP_MULTIPLIER: real := 10000.0

  /** US dollars per pip for one standard lot, for the pairs the table knows. */
  const PIP_VALUE_USD_PER_LOT: map<string, real> :=
    map["EUR/USD" := 10.0, "GBP/USD" := 10.0, "USD/JPY" := 6.8,
        "AUD/USD" := 10.0, "USD/CAD" := 7.2]
  const DEFAULT_PIP_VALUE: real := 10.0

  const BUY_REASON: string := "H4 Uptrend, H1 RSI Pullback, Bullish Confirmation Candle"
  const SELL_REASON: string := "H4 Downtrend, H1 RSI Rally, Bearish Confirmation Candle"

  /** `sub` occurs in `s` starting at index `i`. */
  predicate OccursAt(s: string, sub: string, i: nat) {
    i + |sub| <= |s| && s[i..i + |sub|] == sub
  }

  /** Substring search (`sub in s`), scanning from the left. */
  function Contains(s: string, sub: string): bool
    decreases |s|
  {
    if |s| < |sub| then false
    else s[..|sub|] == sub || Contains(s[1..], sub)
  }

  /** The scan finds `sub` exactly when it occurs somewhere in `s`. */
  lemma {:induction false} ContainsIffOccurs(s: string, sub: string)
    ensures Contains(s, sub) <==> exists i: nat :: OccursAt(s, sub, i)
    decreases |s|
  {
    if |s| < |sub| {
    } else if s[..|sub|] == sub {
      assert OccursAt(s, sub, 0);
    } else {
      ContainsIffOccurs(s[1..], sub);
      if Contains(s[1..], sub) {
        var j: nat :| OccursAt(s[1..], sub, j);
        assert s[1..][j..j + |sub|] == s[j + 1..j + 1 + |sub|];
        assert OccursAt(s, sub, j + 1);
      }
      if exists i: nat :: OccursAt(s, sub, i) {
        var i: nat :| OccursAt(s, sub, i);
        assert i != 0;
        assert s[1..][i - 1..i - 1 + |sub|] == s[i..i + |sub|];
        assert OccursAt(s[1..], sub, i - 1);
      }
    }
  }

  /** A string lacking one of `sub`'s characters does not contain `sub`. */
  lemma MissingCharNoOccurrence(s: string, sub: string, k: nat)
    requires k < |sub| && sub[k] !in s
    ensures !exists i: nat :: OccursAt(s, sub, i)
  {
  }

  /** 100 for any pair whose name contains "JPY", 10000 for every other pair. */
  function PipMultiplier(pair: string): (m: real)
    ensures m == if exists i: nat :: OccursAt(pair, "JPY", i) then 100.0 else 10000.0
  {
    ContainsIffOccurs(pair, "JPY");
    if Contains(pair, "JPY") then JPY_PIP_MULTIPLIER else DEFAULT_PIP_MULTIPLIER
  }

  /** The table's pip value, 10 for a pair the table does not list; always positive. */
  function PipValue(pair: string): (v: real)
    ensures v > 0.0
    ensures pair !in PIP_VALUE_USD_PER_LOT ==> v == 10.0
    ensures pair in PIP_VALUE_USD_PER_LOT ==> v == PIP_VALUE_USD_PER_LOT[pair]
  {
    if pair in PIP_VALUE_USD_PER_LOT then PIP_VALUE_USD_PER_LOT[pair] else DEFAULT_PIP_VALUE
  }

  datatype Sizing = Sizing(lotSize: real, riskAmount: real)

  /**
   * The position size: nothing for a stop distance of zero or less; otherwise
   * the risk is the balance's risk percentage, and the lot size is the one at
   * which a full stop-out loses exactly that risk.
   */
  function PositionSize(balance: real, riskPct: real, slPips: real, pair: string): (z: Sizing)
    ensures slPips <= 0.0 ==> z == Sizing(0.0, 0.0)
    ensures slPips > 0.0 ==> z.riskAmount == balance * riskPct / 100.0
    ensures slPips > 0.0 ==> z.lotSize * slPips * PipValue(pair) == z.riskAmount
    ensures balance >= 0.0 && riskPct >= 0.0 ==> z.lotSize >= 0.0 && z.riskAmount >= 0.0
  {
    if slPips <= 0.0 then Sizing(0.0, 0.0)
    else
      var riskAmount := balance * (riskPct / 100.0);
      var perLotRisk := slPips * PipValue(pair);
      var lotSize := riskAmount / perLotRisk;
      assert lotSize * perLotRisk == riskAmount;
      assert riskAmount >= 0.0 ==> lotSize >= 0.0;
      Sizing(lotSize, riskAmount)
  }

  /** The plan shown for a confirmed signal. */
  datatype TradePlan = TradePlan(
    direction: Direction,
    entry: real,
    stopLoss: real,
    takeProfit: real,
    slPips: real,
    tpPips: real,
    lotSize: real,
    riskAmount: real,
    reason: string)

  /** The ATR in pips. */
  function AtrPips(rawAtr: real, pair: string): real {
    rawAtr * PipMultiplier(pair)
  }

  /**
   * The plan at market: the stop is two ATRs from the entry, the target one
   * and a half stop distances on the other side (below and above for a Buy,
   * mirrored for a Sell), and the size comes from the position-size rule.
   */
  function MakePlan(direction: Direction, pair: string, price: real, rawAtr: real,
                    balance: real, riskPct: real): (p: TradePlan)
    ensures p.direction == direction && p.entry == price
    ensures p.slPips == SL_ATR_MULTIPLIER * AtrPips(rawAtr, pair)
    ensures p.tpPips == RR_RATIO * p.slPips
    ensures direction == Buy ==>
      (p.entry - p.stopLoss) * PipMultiplier(pair) == p.slPips &&
      (p.takeProfit - p.entry) * PipMultiplier(pair) == p.tpPips
    ensures direction == Sell ==>
      (p.stopLoss - p.entry) * PipMultiplier(pair) == p.slPips &&
      (p.entry - p.takeProfit) * PipMultiplier(pair) == p.tpPips
    ensures Sizing(p.lotSize, p.riskAmount) == PositionSize(balance, riskPct, p.slPips, pair)
    ensures p.reason == if direction == Buy then BUY_REASON else SELL_REASON
  {
    var m := PipMultiplier(pair);
    var slPips := AtrPips(rawAtr, pair) * SL_ATR_MULTIPLIER;
    var tpPips := slPips * RR_RATIO;
    var sizing := PositionSize(balance, riskPct, slPips, pair);
    match direction
    case Buy =>
      TradePlan(Buy, price, price - slPips / m, price + tpPips / m,
                slPips, tpPips, sizing.lotSize, sizing.riskAmount, BUY_REASON)
    case Sell =>
      TradePlan(Sell, price, price + slPips / m, price - tpPips / m,
                slPips, tpPips, sizing.lotSize, sizing.riskAmount, SELL_REASON)
  }

  /**
   * With a positive ATR a Buy has its stop below and its target above the
   * entry, a Sell the reverse, and the target is 1.5 times as far away as the
   * stop.
   */
  lemma PlanGeometry(direction: Direction, pair: string, price: real, rawAtr: real,
                     balance: real, riskPct: real)
    requires rawAtr > 0.0
    ensures var p := MakePlan(direction, pair, price, rawAtr, balance, riskPct);
      && (direction == Buy ==> p.stopLoss < p.entry < p.takeProfit)
      && (direction == Sell ==> p.takeProfit < p.entry < p.stopLoss)
      && (direction == Buy ==> p.takeProfit - p.entry == RR_RATIO * (p.entry - p.stopLoss))
      && (direction == Sell ==> p.entry - p.takeProfit == RR_RATIO * (p.stopLoss - p.entry))
  {
  }

  /**
   * With a positive ATR a full stop-out of the plan loses exactly the risk
   * percentage of the balance; with no ATR the plan sizes to nothing.
   */
  lemma PlanRisk(direction: Direction, pair: string, price: real, rawAtr: real,
                 balance: real, riskPct: real)
    ensures var p := MakePlan(direction, pair, price, rawAtr, balance, riskPct);
      && (rawAtr > 0.0 ==> p.lotSize * p.slPips * PipValue(pair) == balance * riskPct / 100.0)
      && (rawAtr <= 0.0 ==> p.lotSize == 0.0 && p.riskAmount == 0.0)
  {
  }

  /** What one pair's panel shows: a plan to confirm, or advice while waiting. */
  datatype Panel = TradeReady(plan: TradePlan) | Advice(hint: Option<Hint>)

  /**
   * The analysis panel: a Buy plan only in an uptrend with RSI in (30, 45]
   * and a bullish candle, a Sell plan only at or below the EMA with RSI in
   * [55, 70) and a bearish candle, entered at the current price; otherwise
   * directional advice.
   */
  function Analyze(pair: string, s: Snapshot, balance: real, riskPct: real): (panel: Panel)
    ensures panel.TradeReady? && panel.plan.direction == Buy <==>
      s.currentPrice > s.ema50Price && BuyRsiOk(s.rsi14) && s.bullishCandle
    ensures panel.TradeReady? && panel.plan.direction == Sell <==>
      s.currentPrice <= s.ema50Price && SellRsiOk(s.rsi14) && s.bearishCandle
    ensures panel.TradeReady? ==>
      panel.plan == MakePlan(panel.plan.direction, pair, s.currentPrice, s.rawAtr, balance, riskPct)
    ensures panel.TradeReady? ==> panel.plan.entry == s.currentPrice
    ensures panel.Advice? && s.currentPrice > s.ema50Price ==>
      panel.hint == Some(if 30.0 < s.rsi14 <= 45.0 then MissingBullishCandle else RsiNotInBuyZone)
    ensures panel.Advice? && s.currentPrice <= s.ema50Price ==>
      panel.hint == Some(if 55.0 <= s.rsi14 < 70.0 then MissingBearishCandle else RsiNotInSellZone)
  {
    match Evaluate(s)
    case Confirmed(direction) =>
      TradeReady(MakePlan(direction, pair, s.currentPrice, s.rawAtr, balance, riskPct))
    case Wait(hint) =>
      Advice(hint)
  }

  /** The pip multiplier of the two kinds of pair the dashboard lists. */
  lemma KnownPairMultipliers()
    ensures PipMultiplier("USD/JPY") == 100.0
    ensures PipMultiplier("EUR/USD") == 10000.0
  {
    assert OccursAt("USD/JPY", "JPY", 4);
    MissingCharNoOccurrence("EUR/USD", "JPY", 0);
  }

  /**
   * EUR/USD at 1.08550 over an EMA of 1.08200, RSI 40, a bullish candle and an
   * ATR of 0.00150 on a 1000 account risking 1%: a Buy with a 30-pip stop at
   * 1.08250, a 45-pip target at 1.09000, and 10 dollars at risk over 1/30 lot.
   */
  lemma EurUsdBuyScenario()
    ensures Analyze("EUR/USD", Snapshot(1.08550, 1.08200, 40.0, 0.00150, true, false), 1000.0, 1.0)
         == TradeReady(TradePlan(Buy, 1.08550, 1.08250, 1.09000, 30.0, 45.0,
                                 1.0 / 30.0, 10.0, BUY_REASON))
  {
    KnownPairMultipliers();
  }
}
