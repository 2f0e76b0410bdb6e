// Session ceilings composed with the kill switch and the core risk filter: paper/risk.py.

module PaperRisk {
  import opened Trading
  import opened PaperOrders
  import opened KillSwitches
  import Risk

  datatype PaperRiskConfig = PaperRiskConfig(
    maxPositionQuantity: real, maxPositionNotional: real, maxOrderNotional: real, maxGrossExposure: real,
    maxDailyLoss: Option<real>, maxTurnover: Option<real>, maxOrderCount: Option<int>)

  datatype Usage = Usage(orderCount: nat, turnover: real, dayStart: Option<real>)

  function CoreConfig(cfg: PaperRiskConfig): Risk.RiskConfig {
    Risk.RiskConfig(cfg.maxOrderNotional, cfg.maxPositionNotional, cfg.maxGrossExposure, false)
  }

  function PaperName(coreReason: string): string {
    if coreReason == "max_order_value" then "max_order_notional"
    else if coreReason == "max_position_value" then "max_position_notional"
    else if coreReason == "max_total_exposure" then "max_gross_exposure"
    else coreReason
  }

  // The refusal of a created or validated order, if any.
  function Screen(cfg: PaperRiskConfig, u: Usage, triggered: bool, order: Order, refPrice: real, position: real,
                  exposure: real, equity: real): Option<string> {
    var notional := Value(order.quantity, refPrice);
    if triggered then Some("kill_switch")
    else if cfg.maxOrderCount.Some? && u.orderCount >= cfg.maxOrderCount.value then Some("max_order_count")
    else if refPrice <= 0.0 then Some("invalid_ref_price")
    else if notional > cfg.maxOrderNotional + EPS9 then Some("max_order_notional")
    else if Risk.PositionAfter(order.side, order.quantity, position) > cfg.maxPositionQuantity + EPS9 then
      Some("max_position_quantity")
    else if cfg.maxTurnover.Some? && u.turnover + notional > cfg.maxTurnover.value + EPS9 then Some("max_turnover")
    else if cfg.maxDailyLoss.Some? && u.dayStart.Some? && u.dayStart.value - equity > cfg.maxDailyLoss.value + EPS9 then
      Some("max_daily_loss")
    else
      match Risk.CheckOrder(CoreConfig(cfg), order, refPrice, position, exposure)
      case Some(reason) => Some(PaperName(reason))
      case None => None
  }

  function Charged(u: Usage, quantity: real, refPrice: real): Usage {
    u.(orderCount := u.orderCount + 1, turnover := u.turnover + Value(quantity, refPrice))
  }

  class PaperRiskEngine {
    const cfg: PaperRiskConfig
    const kill: KillSwitch
    var orderCount: nat
    var turnover: real
    var dayStart: Option<real>

    function View(): Usage
      reads this
    {
      Usage(orderCount, turnover, dayStart)
    }

    constructor (cfg: PaperRiskConfig, kill: KillSwitch)
      ensures this.cfg == cfg && this.kill == kill && View() == Usage(0, 0.0, None)
    {
      this.cfg, this.kill := cfg, kill;
      orderCount, turnover, dayStart := 0, 0.0, None;
    }

    method SetDayStart(equity: real)
      modifies this
      ensures View() == old(View()).(dayStart := Some(equity))
    {
      dayStart := Some(equity);
    }

    // Refuses by moving the intent to Rejected; None accepts and leaves it alone.
    method CheckIntent(intent: OrderIntent, refPrice: real, position: real, exposure: real, equity: real)
      returns (refusal: Option<string>)
      modifies intent
      ensures old(intent.status) !in {Created, Validated} ==>
                refusal == Some("invalid_intent_status_for_risk") && intent.View() == old(intent.View())
      ensures old(intent.status) in {Created, Validated} ==>
                && refusal == Screen(cfg, old(View()), old(kill.triggered), intent.order, refPrice, position,
                                     exposure, equity)
                && (refusal == None ==> intent.View() == old(intent.View()))
                && (refusal.Some? ==> Some(intent.View()) == Transition(old(intent.View()), Rejected, refusal))
    {
      hide Value, Risk.CheckOrder;
      if intent.status !in {Created, Validated} {
        return Some("invalid_intent_status_for_risk");
      }
      var notional := Value(intent.order.quantity, refPrice);
      var after := Risk.PositionAfter(intent.order.side, intent.order.quantity, position);
      refusal := None;
      if kill.triggered {
        refusal := Some("kill_switch");
      } else if cfg.maxOrderCount.Some? && orderCount >= cfg.maxOrderCount.value {
        refusal := Some("max_order_count");
      } else if refPrice <= 0.0 {
        refusal := Some("invalid_ref_price");
      } else if notional > cfg.maxOrderNotional + EPS9 {
        refusal := Some("max_order_notional");
      } else if after > cfg.maxPositionQuantity + EPS9 {
        refusal := Some("max_position_quantity");
      } else if cfg.maxTurnover.Some? && turnover + notional > cfg.maxTurnover.value + EPS9 {
        refusal := Some("max_turnover");
      } else if cfg.maxDailyLoss.Some? && dayStart.Some? && dayStart.value - equity > cfg.maxDailyLoss.value + EPS9 {
        refusal := Some("max_daily_loss");
      } else {
        var core := Risk.CheckOrder(CoreConfig(cfg), intent.order, refPrice, position, exposure);
        if core.Some? {
          refusal := Some(PaperName(core.value));
        }
      }
      if refusal.Some? {
        var _ := intent.MoveTo(Rejected, refusal);
      }
    }

    method RecordAccepted(intent: OrderIntent, refPrice: real)
      modifies this
      ensures View() == Charged(old(View()), intent.order.quantity, refPrice)
    {
      orderCount := orderCount + 1;
      turnover := turnover + Value(intent.order.quantity, refPrice);
    }
  }
}
