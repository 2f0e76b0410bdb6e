// One execution attempt, exactly: when it drops, throws, fills, and what it leaves behind.

module PaperAttempts {
  import opened Trading
  import opened Costs
  import opened PaperOrders
  import opened PaperExecution

  predicate Open(i: Intent) {
    i.status == Accepted || i.status == PartiallyFilled
  }

  // What every intent at rest in a session satisfies, under either fill policy.
  predicate WellFormed(cfg: ExecConfig, i: Intent) {
    && i.status in {Rejected, Accepted, PartiallyFilled, Filled}
    && i.id.IntentId?
    && (i.status == Rejected || i.status == Accepted ==> i.filled == 0.0)
    && (i.status != Rejected ==> i.order.quantity > 0.0 && i.scheduled.Some? && 0.0 <= i.filled <= i.order.quantity)
    && (i.status == PartiallyFilled ==> cfg.policy == AllowPartial && Remaining(i) > EPS9)
    && (i.status == Filled ==> Remaining(i) <= EPS9)
    && (cfg.policy == AllOrNothing && i.status == Filled ==> i.filled == i.order.quantity)
    && (cfg.policy == AllOrNothing && i.status != Rejected ==> i.scheduled == Some(i.id.eventSeq + 1))
  }

  // Fill identifiers carry their sequence number, and none is ahead of the counter.
  predicate VenueOk(v: Venue) {
    forall id :: id in v.applied ==> id.FillId? && id.fillSeq <= v.fillSeq
  }

  lemma FillQuantityBounds(remaining: real, policy: Policy, ratio: real)
    requires remaining > 0.0 && 0.0 < ratio <= 1.0
    ensures 0.0 < FillQuantity(remaining, policy, ratio) <= remaining
    ensures policy == AllOrNothing ==> FillQuantity(remaining, policy, ratio) == remaining
    ensures policy == AllowPartial ==> FillQuantity(remaining, policy, ratio) == remaining * ratio
  {
    assert remaining * ratio > 0.0;
    ProductNonNegative(remaining, 1.0 - ratio);
    assert remaining * (1.0 - ratio) == remaining - remaining * ratio;
  }

  // The quantity the next attempt would fill, and what stands against it.
  function NextQuantity(cfg: ExecConfig, i: Intent): real {
    FillQuantity(Remaining(i), cfg.policy, cfg.ratio)
  }

  function Against(cfg: ExecConfig, i: Intent, open: real, cash: real, position: real, closed: bool): Option<string> {
    Obstacle(cfg, i, NextQuantity(cfg, i), open, cash, position, closed, false)
  }

  // The intent after a fill of quantity q.
  function AfterFillOf(i: Intent, q: real): Intent {
    var i' := i.(filled := i.filled + q);
    i'.(status := if Remaining(i') <= EPS9 then Filled else PartiallyFilled)
  }

  lemma OpenRemains(cfg: ExecConfig, i: Intent)
    requires WellFormed(cfg, i) && Open(i) && 0.0 < cfg.ratio <= 1.0
    ensures Remaining(i) == i.order.quantity - i.filled > 0.0
    ensures 0.0 < NextQuantity(cfg, i) <= Remaining(i)
    ensures cfg.policy == AllOrNothing ==> NextQuantity(cfg, i) == Remaining(i)
    ensures WellFormed(cfg, AfterFillOf(i, NextQuantity(cfg, i)))
  {
    FillQuantityBounds(Remaining(i), cfg.policy, cfg.ratio);
    hide FillQuantity;
  }

  // An attempt on an open intent raises an illegal transition exactly when the intent is partially filled and
  // something stands against the attempt; it raises on the fill exactly when the slipped price is not positive.
  lemma Attempted(cfg: ExecConfig, v: Venue, i: Intent, at: int, open: real, cash: real, position: real, closed: bool)
    requires WellFormed(cfg, i) && Open(i) && VenueOk(v) && 0.0 < cfg.ratio <= 1.0
    ensures var a := ExecuteAtOpen(cfg, v, i, at, open, cash, position, closed, false);
            var against := Against(cfg, i, open, cash, position, closed);
            var f := ProposedFill(cfg, v.fillSeq + 1, i, NextQuantity(cfg, i), at, open);
            && a == (if against.Some? && i.status == PartiallyFilled then Attempt(v, i, Threw(IllegalTransition))
                     else if against.Some? then
                       Attempt(v, i.(status := Rejected, reason := against), Dropped(against.value))
                     else if !ValidFill(f) then Attempt(v.(fillSeq := v.fillSeq + 1), i, Threw(InvalidFill))
                     else Attempt(Venue(v.fillSeq + 1, v.applied + {f.id}), AfterFillOf(i, f.quantity), FilledWith(f)))
            && WellFormed(cfg, a.intent) && VenueOk(a.venue)
  {
    OpenRemains(cfg, i);
    var q := NextQuantity(cfg, i);
    var f := ProposedFill(cfg, v.fillSeq + 1, i, q, at, open);
    ProposedShape(cfg, v.fillSeq + 1, i, q, at, open);
    hide FillQuantity, Obstacle, ProposedFill, ValidFill;
    assert f.id !in v.applied;
    if Against(cfg, i, open, cash, position, closed) == None && ValidFill(f) {
      SettledAs(cfg, v.(fillSeq := v.fillSeq + 1), i, f);
    }
  }

  lemma ProposedShape(cfg: ExecConfig, fillSeq: nat, i: Intent, q: real, at: int, open: real)
    ensures var f := ProposedFill(cfg, fillSeq, i, q, at, open);
            && f.id.FillId? && f.id.fillSeq == fillSeq && f.quantity == q && f.timestamp == at
            && f.symbol == i.order.symbol && f.side == i.order.side && f.orderId == i.order.id
            && f.price == Slip(cfg.bps, i.order.side, open).price
            && f.transactionCost == CostOf(cfg.costs, f.side, q, f.price)
            && BalancedFill(f)
  {
    hide Slip, CostOf, Value, Fixed8;
  }

  lemma SettledAs(cfg: ExecConfig, v: Venue, i: Intent, f: Fill)
    requires WellFormed(cfg, i) && Open(i) && 0.0 < cfg.ratio <= 1.0
    requires f.quantity == NextQuantity(cfg, i)
    ensures Settle(cfg, v, i, f) ==
            Attempt(v.(applied := v.applied + {f.id}), AfterFillOf(i, f.quantity), FilledWith(f))
  {
    OpenRemains(cfg, i);
    hide NextQuantity;
  }

  // Every transition an attempt makes on an open intent follows the table.
  lemma AttemptedMoves(cfg: ExecConfig, v: Venue, i: Intent, at: int, open: real, cash: real, position: real,
                       closed: bool)
    requires WellFormed(cfg, i) && Open(i) && VenueOk(v) && 0.0 < cfg.ratio <= 1.0
    ensures var i' := ExecuteAtOpen(cfg, v, i, at, open, cash, position, closed, false).intent;
            && (i'.status == i.status || Allowed(i.status, i'.status))
            && (cfg.policy == AllOrNothing ==> i'.status in {Accepted, Rejected, Filled})
            && i' == i.(status := i'.status, filled := i'.filled, reason := i'.reason)
  {
    Attempted(cfg, v, i, at, open, cash, position, closed);
    hide ExecuteAtOpen, Against, ProposedFill, NextQuantity;
  }

  // A filled buy is affordable and a filled sale covered, each within the tolerance.
  lemma AttemptedMoney(cfg: ExecConfig, v: Venue, i: Intent, at: int, open: real, cash: real, position: real,
                       closed: bool)
    requires WellFormed(cfg, i) && Open(i) && VenueOk(v) && 0.0 < cfg.ratio <= 1.0
    requires SellsCovered(cfg.costs)
    requires ExecuteAtOpen(cfg, v, i, at, open, cash, position, closed, false).outcome.FilledWith?
    ensures var f := ExecuteAtOpen(cfg, v, i, at, open, cash, position, closed, false).outcome.fill;
            && (f.side == Buy ==> cash + f.netCash >= -EPS9)
            && (f.side == Sell ==> f.quantity <= position + EPS9 && f.netCash >= 0.0)
  {
    Attempted(cfg, v, i, at, open, cash, position, closed);
    var q := NextQuantity(cfg, i);
    ProposedShape(cfg, v.fillSeq + 1, i, q, at, open);
    var f := ProposedFill(cfg, v.fillSeq + 1, i, q, at, open);
    hide ExecuteAtOpen, ProposedFill, NextQuantity, Slip, CostOf, Value;
    if f.side == Sell {
      SellCostAtMostProceeds(cfg.costs, f.quantity, f.price);
    }
  }

  // The same facts, read off the attempt's outcome.
  lemma AttemptedShape(cfg: ExecConfig, v: Venue, i: Intent, at: int, open: real, cash: real, position: real,
                       closed: bool)
    requires WellFormed(cfg, i) && Open(i) && VenueOk(v) && 0.0 < cfg.ratio <= 1.0
    ensures var a := ExecuteAtOpen(cfg, v, i, at, open, cash, position, closed, false);
            && WellFormed(cfg, a.intent) && VenueOk(a.venue)
            && a.intent.order == i.order && a.intent.id == i.id && a.intent.scheduled == i.scheduled
            && (a.intent.status == i.status || Allowed(i.status, a.intent.status))
            && (match a.outcome
                case FilledWith(f) =>
                  && a.intent.filled == i.filled + f.quantity && a.intent.status != Accepted
                  && f.symbol == i.order.symbol && f.side == i.order.side && f.orderId == i.order.id
                  && f.timestamp == at && ValidFill(f) && BalancedFill(f)
                  && f.id.FillId? && f.id.fillSeq == v.fillSeq + 1 && a.venue.fillSeq == v.fillSeq + 1
                  && f.quantity == NextQuantity(cfg, i)
                case Dropped(_) =>
                  a.intent.filled == i.filled && a.intent.status == Rejected && i.status == Accepted
                  && a.venue == v
                case Threw(fault) =>
                  a.intent == i && (fault == IllegalTransition ==> i.status == PartiallyFilled)
                  && a.venue.fillSeq >= v.fillSeq)
  {
    Attempted(cfg, v, i, at, open, cash, position, closed);
    AttemptedMoves(cfg, v, i, at, open, cash, position, closed);
    ProposedShape(cfg, v.fillSeq + 1, i, NextQuantity(cfg, i), at, open);
    hide ExecuteAtOpen, Against, ProposedFill, NextQuantity, WellFormed, VenueOk, BalancedFill, ValidFill;
  }
}
