/** The risk:reward ratio of a planned trade and the trade-history record that
    carries it. Reading and writing the history file is not part of this model. */
module Utils {
  import opened Wrappers
  import opened Signals
  import Text

  function Abs(x: real): real {
    if x < 0.0 then -x else x
  }

  /** Reward distance over risk distance, 0 when there is no risk distance. */
  function RiskRewardRatio(entry: real, stopLoss: real, takeProfit: real, side: string): (r: real)
    ensures r >= 0.0
    ensures Abs(entry - stopLoss) == 0.0 ==> r == 0.0
    ensures Abs(entry - stopLoss) != 0.0 ==> r * Abs(entry - stopLoss) == Abs(takeProfit - entry)
  {
    var risk := if Text.Upper(side) == Buy then Abs(entry - stopLoss) else Abs(stopLoss - entry);
    var reward := if Text.Upper(side) == Buy then Abs(takeProfit - entry) else Abs(entry - takeProfit);
    if risk == 0.0 then 0.0 else reward / risk
  }

  /** Both sides measure the same distances, so the side never matters. */
  lemma RatioIgnoresSide(entry: real, stopLoss: real, takeProfit: real, side1: string, side2: string)
    ensures RiskRewardRatio(entry, stopLoss, takeProfit, side1) == RiskRewardRatio(entry, stopLoss, takeProfit, side2)
  {
    var risk := Abs(entry - stopLoss);
    if risk != 0.0 {
      var r1 := RiskRewardRatio(entry, stopLoss, takeProfit, side1);
      var r2 := RiskRewardRatio(entry, stopLoss, takeProfit, side2);
      assert r1 * risk == r2 * risk;
    }
  }

  /** A trade-history entry. */
  datatype TradeRecord = TradeRecord(
    symbol: string,
    side: string,
    entryPrice: Option<real>,
    quantity: real,
    stopLoss: Option<real>,
    takeProfit: Option<real>,
    strategy: string,
    timestamp: int,
    riskRewardRatio: real)

  /** The record built for a trade at time `now`; the ratio reads a missing
      price, stop-loss or take-profit as 0. */
  function MakeTradeRecord(trade: Signal, now: int): (r: TradeRecord)
    ensures r.symbol == trade.symbol && r.side == trade.side && r.strategy == trade.strategy
    ensures r.entryPrice == trade.price && r.quantity == trade.quantity
    ensures r.stopLoss == trade.stopLoss && r.takeProfit == trade.takeProfit
    ensures r.timestamp == now
    ensures r.riskRewardRatio >= 0.0
    ensures trade.price.None? && trade.stopLoss.None? ==> r.riskRewardRatio == 0.0
    ensures trade.price.Some? && trade.stopLoss.Some? && trade.takeProfit.Some? && trade.price != trade.stopLoss ==>
      r.riskRewardRatio * Abs(trade.price.value - trade.stopLoss.value) == Abs(trade.takeProfit.value - trade.price.value)
  {
    TradeRecord(
      trade.symbol, trade.side, trade.price, trade.quantity, trade.stopLoss, trade.takeProfit,
      trade.strategy, now,
      RiskRewardRatio(trade.price.GetOr(0.0), trade.stopLoss.GetOr(0.0), trade.takeProfit.GetOr(0.0), trade.side))
  }
}
