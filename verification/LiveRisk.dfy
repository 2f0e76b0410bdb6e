// The capital hierarchy and the live order check: execution/live_risk.py.

module LiveRisk {
  import opened Trading
  import Risk

  datatype CapitalLimits = CapitalLimits(
    orderNotional: real, positionNotional: real, grossExposure: real, dailyLoss: Option<real>,
    turnover: Option<real>, orderCount: Option<int>, allocation: Option<real>)

  const PLATFORM := CapitalLimits(100000.0, 100000.0, 100000.0, Some(25000.0), Some(500000.0), Some(100),
                                  Some(100000.0))

  function Min(a: real, b: real): real { if a <= b then a else b }

  function MinOptional(a: Option<real>, b: Option<real>): Option<real> {
    if a == None then b else if b == None then a else Some(Min(a.value, b.value))
  }

  function MinCount(a: Option<int>, b: Option<int>): Option<int> {
    if a == None then b else if b == None then a else Some(if a.value <= b.value then a.value else b.value)
  }

  function Tighter(a: CapitalLimits, b: CapitalLimits): CapitalLimits {
    CapitalLimits(Min(a.orderNotional, b.orderNotional), Min(a.positionNotional, b.positionNotional),
                  Min(a.grossExposure, b.grossExposure), MinOptional(a.dailyLoss, b.dailyLoss),
                  MinOptional(a.turnover, b.turnover), MinCount(a.orderCount, b.orderCount),
                  MinOptional(a.allocation, b.allocation))
  }

  // None is infinity.
  predicate AtMost(a: Option<real>, b: Option<real>) {
    b.Some? ==> a.Some? && a.value <= b.value
  }

  predicate CountAtMost(a: Option<int>, b: Option<int>) {
    b.Some? ==> a.Some? && a.value <= b.value
  }

  // a is at most b in every component.
  predicate Within(a: CapitalLimits, b: CapitalLimits) {
    && a.orderNotional <= b.orderNotional && a.positionNotional <= b.positionNotional
    && a.grossExposure <= b.grossExposure && AtMost(a.dailyLoss, b.dailyLoss) && AtMost(a.turnover, b.turnover)
    && CountAtMost(a.orderCount, b.orderCount) && AtMost(a.allocation, b.allocation)
  }

  // m is the componentwise minimum of the levels: below every level, and above whatever is below every level.
  ghost predicate IsMeet(m: CapitalLimits, levels: seq<CapitalLimits>) {
    && (forall i :: 0 <= i < |levels| ==> Within(m, levels[i]))
    && (forall x :: (forall i :: 0 <= i < |levels| ==> Within(x, levels[i])) ==> Within(x, m))
  }

  // None when there is no level and the original raises.
  method Merge(levels: seq<CapitalLimits>) returns (merged: Option<CapitalLimits>)
    ensures merged == None <==> levels == []
    ensures merged.Some? ==> IsMeet(merged.value, levels)
  {
    if levels == [] {
      return None;
    }
    var acc := levels[0];
    for k := 1 to |levels|
      invariant IsMeet(acc, levels[..k])
    {
      assert levels[..k + 1] == levels[..k] + [levels[k]];
      MeetAppend(acc, levels[..k], levels[k]);
      acc := Tighter(acc, levels[k]);
    }
    assert levels[..|levels|] == levels;
    return Some(acc);
  }

  lemma WithinTransitive(a: CapitalLimits, b: CapitalLimits, c: CapitalLimits)
    requires Within(a, b) && Within(b, c)
    ensures Within(a, c)
  {
  }

  lemma TighterIsMeet(a: CapitalLimits, b: CapitalLimits)
    ensures Within(Tighter(a, b), a) && Within(Tighter(a, b), b)
    ensures forall x :: Within(x, a) && Within(x, b) ==> Within(x, Tighter(a, b))
  {
  }

  lemma MeetAppend(m: CapitalLimits, levels: seq<CapitalLimits>, next: CapitalLimits)
    requires IsMeet(m, levels)
    ensures IsMeet(Tighter(m, next), levels + [next])
  {
    TighterIsMeet(m, next);
    var t := Tighter(m, next);
    var all := levels + [next];
    hide Within, Tighter;
    forall i | 0 <= i < |all|
      ensures Within(t, all[i])
    {
      if i < |levels| {
        assert all[i] == levels[i];
        WithinTransitive(t, m, levels[i]);
      }
    }
    forall x | forall i :: 0 <= i < |all| ==> Within(x, all[i])
      ensures Within(x, t)
    {
      assert all[|levels|] == next;
      assert forall i :: 0 <= i < |levels| ==> all[i] == levels[i];
      assert Within(x, m);
    }
  }

  datatype Load = Load(orderCount: nat, turnover: real)

  function PositivePart(x: real): real { if x > 0.0 then x else 0.0 }

  // check_order; None accepts.
  function CheckOrder(eff: CapitalLimits, load: Load, triggered: bool, order: Order, refPrice: real, position: real,
                      exposure: real, equity: real, capitalUsed: real, dayStart: real): Option<string> {
    var notional := Value(order.quantity, refPrice);
    var after := Value(PositivePart(Risk.PositionAfter(order.side, order.quantity, position)), refPrice);
    if triggered then Some("kill_switch")
    else if order.side == Sell && order.quantity > position + EPS9 then Some("shorting_not_allowed")
    else if notional > eff.orderNotional + EPS9 then Some("max_order_notional")
    else if after > eff.positionNotional + EPS9 then Some("max_position_notional")
    else if exposure - Value(position, refPrice) + after > eff.grossExposure + EPS9 then Some("max_gross_exposure")
    else if eff.orderCount.Some? && load.orderCount >= eff.orderCount.value then Some("max_order_count")
    else if eff.turnover.Some? && load.turnover + notional > eff.turnover.value + EPS9 then Some("max_turnover")
    else if eff.dailyLoss.Some? && dayStart - equity > eff.dailyLoss.value + EPS9 then Some("max_daily_loss")
    else if eff.allocation.Some? && order.side == Buy && capitalUsed + notional > eff.allocation.value + EPS9 then
      Some("max_capital_allocation")
    else None
  }

  // The greatest lower bound is unique.
  lemma MeetUnique(a: CapitalLimits, b: CapitalLimits, levels: seq<CapitalLimits>)
    requires IsMeet(a, levels) && IsMeet(b, levels)
    ensures a == b
  {
    assert Within(a, b) && Within(b, a);
  }

  class LiveRiskEngine {
    const effective: CapitalLimits
    var orderCount: nat
    var turnover: real

    function View(): Load
      reads this
    {
      Load(orderCount, turnover)
    }

    // The platform's own ceiling holds without the hierarchy check the original makes here.
    constructor (strategy: CapitalLimits, session: CapitalLimits, account: CapitalLimits, platform: CapitalLimits)
      ensures IsMeet(effective, [strategy, session, account, platform])
      ensures effective.orderNotional <= platform.orderNotional + EPS9
      ensures View() == Load(0, 0.0)
    {
      var levels := [strategy, session, account, platform];
      var merged := Merge(levels);
      assert Within(merged.value, levels[3]);
      effective := merged.value;
      orderCount, turnover := 0, 0.0;
    }

    method Check(triggered: bool, order: Order, refPrice: real, position: real, exposure: real, equity: real,
                 capitalUsed: real, dayStart: real) returns (why: Option<string>)
      ensures why == CheckOrder(effective, View(), triggered, order, refPrice, position, exposure, equity, capitalUsed,
                                dayStart)
    {
      hide Value;
      if triggered {
        return Some("kill_switch");
      }
      if order.side == Sell && order.quantity > position + EPS9 {
        return Some("shorting_not_allowed");
      }
      var notional := Value(order.quantity, refPrice);
      if notional > effective.orderNotional + EPS9 {
        return Some("max_order_notional");
      }
      var after := if order.side == Buy then position + order.quantity else position - order.quantity;
      var afterNotional := Value(PositivePart(after), refPrice);
      if afterNotional > effective.positionNotional + EPS9 {
        return Some("max_position_notional");
      }
      if exposure - Value(position, refPrice) + afterNotional > effective.grossExposure + EPS9 {
        return Some("max_gross_exposure");
      }
      if effective.orderCount.Some? && orderCount >= effective.orderCount.value {
        return Some("max_order_count");
      }
      if effective.turnover.Some? && turnover + notional > effective.turnover.value + EPS9 {
        return Some("max_turnover");
      }
      if effective.dailyLoss.Some? && dayStart - equity > effective.dailyLoss.value + EPS9 {
        return Some("max_daily_loss");
      }
      if effective.allocation.Some? && order.side == Buy
         && capitalUsed + notional > effective.allocation.value + EPS9 {
        return Some("max_capital_allocation");
      }
      return None;
    }

    method RecordAccepted(notional: real)
      modifies this
      ensures View() == Load(old(orderCount) + 1, old(turnover) + notional)
    {
      orderCount := orderCount + 1;
      turnover := turnover + notional;
    }
  }
}
