/** The strategy's single source of stop, target and reward-to-risk
    (talonx_quant/strategy.py, calculate_trade_geometry). */
module Geometry {
  import opened Sequences
  import opened Market

  datatype TradeGeometry = TradeGeometry(stop: real, target: real, risk: real, riskReward: Option<real>)

  function Ratio(reward: Option<real>, risk: real): Option<real>
    requires risk > 0.0
  {
    match reward
    case Some(gain) => if gain > 0.0 then Some(gain / risk) else None
    case None => None
  }

  /** A usable structural support, or the ATR distance below the price. */
  function BullishStop(price: real, atrRisk: real, support: Option<real>): real {
    if support.Some? && support.value > 0.0 && support.value < price then support.value else price - atrRisk
  }

  /** No geometry while ATR or price is missing; a ratio only against a structural target. */
  function CalculateTradeGeometry(price: real, atr: Option<real>, direction: Direction,
                                  resistance: Option<real>, support: Option<real>, qc: QuantConfig)
    : Option<TradeGeometry>
  {
    if atr.None? || atr.value <= 0.0 || price == 0.0 then None
    else
      var atrRisk := qc.atrStopMultiplier * atr.value;
      var atrReward := qc.atrRewardMultiplier * atr.value;
      if atrRisk <= 0.0 then None
      else match direction
        case Bullish =>
          var stop := BullishStop(price, atrRisk, support);
          var risk := price - stop;
          if resistance.Some? && resistance.value > price then
            Some(TradeGeometry(stop, resistance.value, risk, Ratio(Some(resistance.value - price), risk)))
          else
            Some(TradeGeometry(stop, price + atrReward, risk, None))
        case Bearish =>
          if support.Some? && support.value < price then
            Some(TradeGeometry(price + atrRisk, support.value, atrRisk, Ratio(Some(price - support.value), atrRisk)))
          else
            Some(TradeGeometry(price + atrRisk, price - atrReward, atrRisk, None))
  }

  /** The levels enclose the price on the correct sides for the direction. */
  predicate Brackets(direction: Direction, stop: real, price: real, target: real) {
    match direction
    case Bullish => stop < price < target
    case Bearish => target < price < stop
  }

  function Distance(a: real, b: real): (d: real)
    ensures d >= 0.0
    ensures d == a - b || d == b - a
  {
    if a >= b then a - b else b - a
  }

  /** A geometry that carries a ratio always encloses its price, its risk is the true
      distance to the stop, and the ratio is the true reward over that risk. */
  lemma GatedGeometryBrackets(price: real, atr: Option<real>, direction: Direction,
                              resistance: Option<real>, support: Option<real>, qc: QuantConfig)
    ensures
      var g := CalculateTradeGeometry(price, atr, direction, resistance, support, qc);
      g.Some? ==>
        && g.value.risk == Distance(price, g.value.stop) > 0.0
        && (g.value.riskReward.Some? ==>
              && Brackets(direction, g.value.stop, price, g.value.target)
              && g.value.riskReward.value > 0.0
              && g.value.riskReward.value * g.value.risk == Distance(g.value.target, price))
  {
    var g := CalculateTradeGeometry(price, atr, direction, resistance, support, qc);
    if g.Some? && g.value.riskReward.Some? {
      RatioIsExact(Distance(g.value.target, price), g.value.risk);
    }
  }

  lemma RatioIsExact(reward: real, risk: real)
    requires risk > 0.0 && reward > 0.0
    ensures (reward / risk) * risk == reward
    ensures reward / risk > 0.0
  {
  }

  /** When a candidate can be gated at all: a positive ATR stop distance, a real price, and a
      pivot on the profitable side of the price. */
  lemma RatioExistsExactly(price: real, atr: Option<real>, direction: Direction,
                           resistance: Option<real>, support: Option<real>, qc: QuantConfig)
    ensures
      var g := CalculateTradeGeometry(price, atr, direction, resistance, support, qc);
      (g.Some? && g.value.riskReward.Some?) <==>
        && atr.Some? && atr.value > 0.0 && price != 0.0 && qc.atrStopMultiplier > 0.0
        && (if direction.Bullish? then resistance.Some? && resistance.value > price
            else support.Some? && support.value < price)
  {
    if atr.Some? && atr.value > 0.0 {
      SignOfProduct(qc.atrStopMultiplier, atr.value);
    }
  }

  lemma SignOfProduct(a: real, b: real)
    requires b > 0.0
    ensures a * b > 0.0 <==> a > 0.0
  {
  }
}
