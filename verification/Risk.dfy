// The independent order filter both engines consult: risk/limits.py.

module Risk {
  import opened Trading

  datatype RiskConfig = RiskConfig(maxOrderValue: real, maxPositionValue: real, maxTotalExposure: real,
                                   killSwitch: bool)

  function PositionAfter(side: Side, quantity: real, position: real): real {
    if side == Buy then position + quantity else position - quantity
  }

  // None accepts the order unchanged; Some names the reason of the refusal.
  function CheckOrder(cfg: RiskConfig, order: Order, refPrice: real, position: real, exposure: real): Option<string> {
    var after := Value(PositionAfter(order.side, order.quantity, position), refPrice);
    if cfg.killSwitch then Some("kill_switch")
    else if refPrice <= 0.0 then Some("invalid_ref_price")
    else if Value(order.quantity, refPrice) > cfg.maxOrderValue + EPS9 then Some("max_order_value")
    else if order.side == Sell && order.quantity > position + EPS9 then Some("shorting_not_allowed")
    else if after > cfg.maxPositionValue + EPS9 then Some("max_position_value")
    else if exposure - Value(position, refPrice) + after > cfg.maxTotalExposure + EPS9 then Some("max_total_exposure")
    else None
  }
}
