// The only paper fill factory: paper/execution.py and paper/fills.py.

module PaperExecution {
  import opened Trading
  import opened Costs
  import opened PaperOrders

  datatype Policy = AllOrNothing | AllowPartial

  datatype ExecConfig = ExecConfig(session: string, costs: CostConfig, bps: real, policy: Policy, ratio: real)

  // compute_fill_quantity
  function FillQuantity(remaining: real, policy: Policy, ratio: real): real {
    if remaining <= 0.0 then 0.0
    else if policy == AllOrNothing then remaining
    else
      var part := Value(remaining, ratio);
      var capped := if part < remaining then part else remaining;
      if capped > 0.0 then capped else 0.0
  }

  // build_fill, before the Fill constructor's own checks.
  function BuildFill(id: Id, orderId: Id, at: int, symbol: string, side: Side, quantity: real, price: real,
                     slippage: real, cost: real): Fill {
    var gross := Value(quantity, price);
    Fill(id, orderId, at, symbol, side, quantity, price, slippage, cost, gross,
         if side == Buy then -(gross + cost) else gross - cost)
  }

  datatype Venue = Venue(fillSeq: nat, applied: set<Id>)

  datatype Fault = IllegalTransition | InvalidFill | StrategyFailed

  // Dropped leaves the queue without a fill; Threw is an exception out of the adapter.
  datatype Outcome = FilledWith(fill: Fill) | Dropped(reason: string) | Threw(fault: Fault)

  datatype Attempt = Attempt(venue: Venue, intent: Intent, outcome: Outcome)

  // Refuse by a transition to Rejected, which raises when the status has no such edge.
  function Refuse(v: Venue, i: Intent, reason: string): Attempt {
    match Transition(i, Rejected, Some(reason))
    case Some(i') => Attempt(v, i', Dropped(reason))
    case None => Attempt(v, i, Threw(IllegalTransition))
  }

  // What stands against the attempt before any fill is built; quantity is the amount to fill.
  function Obstacle(cfg: ExecConfig, i: Intent, quantity: real, open: real, cash: real, position: real,
                    closed: bool, stale: bool): Option<string> {
    if closed then Some("market_closed")
    else if stale then Some("stale_data")
    else if open <= 0.0 then Some("invalid_open_price")
    else if quantity <= 0.0 then Some("zero_fill_quantity")
    else
      var price := Slip(cfg.bps, i.order.side, open).price;
      if i.order.side == Buy && Value(quantity, price) + CostOf(cfg.costs, Buy, quantity, price) > cash + EPS9 then
        Some("insufficient_cash")
      else if i.order.side == Sell && quantity > position + EPS9 then Some("insufficient_position")
      else None
  }

  // Book the fill on the intent and settle its status.
  function Settle(cfg: ExecConfig, v: Venue, i: Intent, f: Fill): Attempt {
    var v' := v.(applied := v.applied + {f.id});
    var i' := i.(filled := i.filled + f.quantity);
    if Remaining(i') <= EPS9 then
      match Transition(i', Filled, None)
      case Some(done) => Attempt(v', done, FilledWith(f))
      case None => Attempt(v', i', Threw(IllegalTransition))
    else if cfg.policy == AllOrNothing then Refuse(v', i', "partial_unexpected")
    else if i'.status == PartiallyFilled then Attempt(v', i', FilledWith(f))
    else
      match Transition(i', PartiallyFilled, None)
      case Some(open) => Attempt(v', open, FilledWith(f))
      case None => Attempt(v', i', Threw(IllegalTransition))
  }

  function ProposedFill(cfg: ExecConfig, fillSeq: nat, i: Intent, quantity: real, at: int, open: real): Fill {
    var quote := Slip(cfg.bps, i.order.side, open);
    var cost := CostOf(cfg.costs, i.order.side, quantity, quote.price);
    var id := FillId(cfg.session, i.order.id, fillSeq, i.order.symbol, Fixed8(quantity), Fixed8(quote.price));
    BuildFill(id, i.order.id, at, i.order.symbol, i.order.side, quantity, quote.price, quote.slippagePerUnit, cost)
  }

  // execute_at_open
  function ExecuteAtOpen(cfg: ExecConfig, v: Venue, i: Intent, at: int, open: real, cash: real, position: real,
                         closed: bool, stale: bool): Attempt {
    if i.status !in {Accepted, PartiallyFilled} then Attempt(v, i, Dropped("invalid_status"))
    else
      var quantity := FillQuantity(Remaining(i), cfg.policy, cfg.ratio);
      match Obstacle(cfg, i, quantity, open, cash, position, closed, stale)
      case Some(reason) => Refuse(v, i, reason)
      case None =>
        var v' := v.(fillSeq := v.fillSeq + 1);
        var f := ProposedFill(cfg, v'.fillSeq, i, quantity, at, open);
        if f.id in v.applied then Refuse(v', i, "duplicate_fill_id")
        else if !ValidFill(f) then Attempt(v', i, Threw(InvalidFill))
        else Settle(cfg, v', i, f)
  }

  class PaperExecutionAdapter {
    const cfg: ExecConfig
    var fillSeq: nat
    var applied: set<Id>

    function View(): Venue
      reads this
    {
      Venue(fillSeq, applied)
    }

    constructor (cfg: ExecConfig)
      ensures this.cfg == cfg && View() == Venue(0, {})
    {
      this.cfg := cfg;
      fillSeq, applied := 0, {};
    }

    method Refused(intent: OrderIntent, reason: string) returns (outcome: Outcome)
      modifies intent
      ensures Attempt(View(), intent.View(), outcome) == Refuse(old(View()), old(intent.View()), reason)
      ensures !outcome.FilledWith?
    {
      var legal := intent.MoveTo(Rejected, Some(reason));
      return if legal then Dropped(reason) else Threw(IllegalTransition);
    }

    method Execute(intent: OrderIntent, at: int, open: real, cash: real, position: real, closed: bool, stale: bool)
      returns (outcome: Outcome)
      modifies this, intent
      ensures Attempt(View(), intent.View(), outcome) ==
              ExecuteAtOpen(cfg, old(View()), old(intent.View()), at, open, cash, position, closed, stale)
      ensures outcome.FilledWith? ==> ValidFill(outcome.fill)
    {
      hide Slip, CostOf, Value, Fixed8, Obstacle, FillQuantity, ProposedFill, Refuse, Settle;
      if intent.status !in {Accepted, PartiallyFilled} {
        return Dropped("invalid_status");
      }
      var quantity := FillQuantity(Remaining(intent.View()), cfg.policy, cfg.ratio);
      var obstacle := Obstacle(cfg, intent.View(), quantity, open, cash, position, closed, stale);
      if obstacle.Some? {
        outcome := Refused(intent, obstacle.value);
        return;
      }
      fillSeq := fillSeq + 1;
      var f := ProposedFill(cfg, fillSeq, intent.View(), quantity, at, open);
      if f.id in applied {
        outcome := Refused(intent, "duplicate_fill_id");
        return;
      }
      if !ValidFill(f) {
        return Threw(InvalidFill);
      }
      outcome := Book(intent, f);
    }

    method Book(intent: OrderIntent, f: Fill) returns (outcome: Outcome)
      modifies this, intent
      ensures Attempt(View(), intent.View(), outcome) == Settle(cfg, old(View()), old(intent.View()), f)
      ensures outcome.FilledWith? ==> outcome.fill == f
    {
      applied := applied + {f.id};
      intent.filled := intent.filled + f.quantity;
      if Remaining(intent.View()) <= EPS9 {
        var legal := intent.MoveTo(Filled, None);
        return if legal then FilledWith(f) else Threw(IllegalTransition);
      }
      if cfg.policy == AllOrNothing {
        outcome := Refused(intent, "partial_unexpected");
        return;
      }
      if intent.status != PartiallyFilled {
        var legal := intent.MoveTo(PartiallyFilled, None);
        if !legal {
          return Threw(IllegalTransition);
        }
      }
      return FilledWith(f);
    }
  }
}
