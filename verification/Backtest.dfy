// The chronological single-symbol loop: backtest/engine.py and BrokerSimulator.execute of backtest/broker_sim.py.
// A signal at a bar's close is filled at the next bar's open; at most one order is pending.

module Backtest {
  import opened Trading
  import opened Costs
  import opened Ledger
  import opened Risk

  datatype Config = Config(initialCash: real, costs: CostConfig, bps: real, risk: RiskConfig)

  datatype Scheduled = Scheduled(order: Order, signalTs: int)

  datatype LogEntry =
    | FillLogged(fill: Fill)
    | SignalLogged(signal: Signal)
    | RejectedLogged(timestamp: int, order: Order, reason: string)
    | CancelledLogged(timestamp: int, order: Order, reason: string)
    | ScheduledLogged(timestamp: int, executeAt: int, order: Order)

  datatype Failure = NoBars | LookAhead | InvalidFill | ShortSale | StrategyFailed

  datatype State = State(book: Book, pending: Option<Scheduled>, shown: seq<Context>, signals: seq<Signal>,
                         log: seq<LogEntry>)

  // BrokerSimulator.execute; None when the Fill constructor or the open-price check raises.
  function Execute(cfg: Config, order: Order, id: Id, at: int, open: real): Option<Fill> {
    if open <= 0.0 then None
    else
      var quote := Slip(cfg.bps, order.side, open);
      var cost := CostOf(cfg.costs, order.side, order.quantity, quote.price);
      var gross := Value(order.quantity, quote.price);
      var fill := Fill(id, order.id, at, order.symbol, order.side, order.quantity, quote.price, quote.slippagePerUnit,
                       cost, gross, if order.side == Buy then -(gross + cost) else gross - cost);
      if ValidFill(fill) then Some(fill) else None
  }

  predicate Unaffordable(b: Book, f: Fill) {
    f.netCash < 0.0 && b.cash + f.netCash < -EPS9
  }

  function FillPending(cfg: Config, bar: Bar, s: State): Result<State, Failure> {
    match s.pending
    case None => Ok(s)
    case Some(p) =>
      if p.signalTs >= bar.timestamp then Err(LookAhead)
      else
        match Execute(cfg, p.order, Uuid(|s.book.fills|), bar.timestamp, bar.open)
        case None => Err(InvalidFill)
        case Some(f) =>
          if Unaffordable(s.book, f) then
            Ok(s.(pending := None,
                  log := s.log + [CancelledLogged(bar.timestamp, p.order, "insufficient_cash_at_fill")]))
          else if Refuses(s.book, f) then Err(ShortSale)
          else Ok(s.(pending := None, book := AfterFill(s.book, f), log := s.log + [FillLogged(f)]))
  }

  function ContextAt(bars: seq<Bar>, i: nat, b: Book): Context
    requires i < |bars|
  {
    var bar := bars[i];
    Context(bar.timestamp, bar.symbol, bars[..i + 1], Quantity(b, bar.symbol), b.cash, None)
  }

  predicate NoFuture(bars: seq<Bar>, now: int) {
    forall i :: 0 <= i < |bars| ==> bars[i].timestamp <= now
  }

  // Mark at the close and show the bar to the strategy.
  function Observe(strategy: Strategy, bars: seq<Bar>, i: nat, s: State): Result<(State, seq<Order>), Failure>
    requires i < |bars|
  {
    var book := SetMark(s.book, bars[i].symbol, bars[i].close);
    var shown := s.shown + [ContextAt(bars, i, book)];
    if !NoFuture(bars[..i + 1], bars[i].timestamp) then Err(LookAhead)
    else
      match strategy(shown)
      case Raises => Err(StrategyFailed)
      case Decision(signal, orders) =>
        Ok((s.(book := book, shown := shown, signals := s.signals + [signal], log := s.log + [SignalLogged(signal)]),
            orders))
  }

  ghost function Place(cfg: Config, bars: seq<Bar>, i: nat, s: State, order: Order): Result<State, Failure>
    requires i < |bars|
  {
    var bar := bars[i];
    match CheckOrder(cfg.risk, order, bar.close, Quantity(s.book, bar.symbol), MarketValue(s.book))
    case Some(reason) => Ok(s.(log := s.log + [RejectedLogged(bar.timestamp, order, reason)]))
    case None =>
      if i + 1 >= |bars| then
        Ok(s.(log := s.log + [CancelledLogged(bar.timestamp, order, "no_next_bar_for_execution")]))
      else if bars[i + 1].timestamp <= bar.timestamp then Err(LookAhead)
      else
        var superseded := if s.pending == None then []
                          else [CancelledLogged(bar.timestamp, s.pending.value.order, "superseded")];
        Ok(s.(pending := Some(Scheduled(order, bar.timestamp)),
              log := s.log + superseded + [ScheduledLogged(bar.timestamp, bars[i + 1].timestamp, order)]))
  }

  ghost function PlaceAll(cfg: Config, bars: seq<Bar>, i: nat, s: State, orders: seq<Order>): Result<State, Failure>
    requires i < |bars|
    decreases |orders|
  {
    if orders == [] then Ok(s)
    else
      match Place(cfg, bars, i, s, orders[0])
      case Err(e) => Err(e)
      case Ok(s') => PlaceAll(cfg, bars, i, s', orders[1..])
  }

  // Everything one bar does.
  ghost function Step(cfg: Config, strategy: Strategy, bars: seq<Bar>, i: nat, s: State): Result<State, Failure>
    requires i < |bars|
  {
    match FillPending(cfg, bars[i], s)
    case Err(e) => Err(e)
    case Ok(s1) =>
      match Observe(strategy, bars, i, s1)
      case Err(e) => Err(e)
      case Ok(pair) =>
        match PlaceAll(cfg, bars, i, pair.0, pair.1)
        case Err(e) => Err(e)
        case Ok(s3) => Ok(s3.(book := Record(s3.book, bars[i].timestamp)))
  }

  function Start(cfg: Config): State {
    State(Fresh(cfg.initialCash), None, [], [], [])
  }

  // The state after the first k bars.
  ghost function After(cfg: Config, strategy: Strategy, bars: seq<Bar>, k: nat): Result<State, Failure>
    requires k <= |bars|
  {
    if k == 0 then Ok(Start(cfg))
    else
      match After(cfg, strategy, bars, k - 1)
      case Err(e) => Err(e)
      case Ok(s) => Step(cfg, strategy, bars, k - 1, s)
  }

  predicate Chronological(bars: seq<Bar>) {
    forall i :: 1 <= i < |bars| ==> bars[i - 1].timestamp <= bars[i].timestamp
  }

  ghost function RunResult(cfg: Config, strategy: Strategy, bars: seq<Bar>): Result<State, Failure> {
    if bars == [] then Err(NoBars)
    else if !Chronological(bars) then Err(LookAhead)
    else After(cfg, strategy, bars, |bars|)
  }

  lemma {:induction false} FailureSticks(cfg: Config, strategy: Strategy, bars: seq<Bar>, k: nat, n: nat)
    requires k <= n <= |bars| && After(cfg, strategy, bars, k).Err?
    ensures After(cfg, strategy, bars, n) == After(cfg, strategy, bars, k)
    decreases n - k
  {
    if k < n {
      FailureSticks(cfg, strategy, bars, k, n - 1);
    }
  }

  lemma StepDecides(cfg: Config, strategy: Strategy, bars: seq<Bar>, i: nat, s: State)
    requires i < |bars| && After(cfg, strategy, bars, i) == Ok(s)
    ensures After(cfg, strategy, bars, i + 1) == Step(cfg, strategy, bars, i, s)
    ensures Step(cfg, strategy, bars, i, s).Err? ==>
              After(cfg, strategy, bars, |bars|) == Step(cfg, strategy, bars, i, s)
  {
    hide Step;
    if Step(cfg, strategy, bars, i, s).Err? {
      FailureSticks(cfg, strategy, bars, i + 1, |bars|);
    }
  }

  method CheckChronological(bars: seq<Bar>) returns (ok: bool)
    requires bars != []
    ensures ok == Chronological(bars)
  {
    for i := 1 to |bars|
      invariant forall j :: 1 <= j < i ==> bars[j - 1].timestamp <= bars[j].timestamp
    {
      if bars[i].timestamp < bars[i - 1].timestamp {
        return false;
      }
    }
    return true;
  }

  // The engine's run.
  method Run(cfg: Config, strategy: Strategy, bars: seq<Bar>) returns (r: Result<State, Failure>)
    ensures r == RunResult(cfg, strategy, bars)
  {
    if bars == [] {
      return Err(NoBars);
    }
    var ordered := CheckChronological(bars);
    if !ordered {
      return Err(LookAhead);
    }
    r := Loop(cfg, strategy, bars);
  }

  // The loop itself, over a mutable portfolio.
  method Loop(cfg: Config, strategy: Strategy, bars: seq<Bar>) returns (r: Result<State, Failure>)
    ensures r == After(cfg, strategy, bars, |bars|)
  {
    var portfolio := new Portfolio(cfg.initialCash);
    var pending: Option<Scheduled> := None;
    var shown: seq<Context>, signals: seq<Signal>, log: seq<LogEntry> := [], [], [];
    assert After(cfg, strategy, bars, 0) == Ok(State(portfolio.View(), pending, shown, signals, log));
    hide *;
    for i := 0 to |bars|
      invariant fresh(portfolio)
      invariant After(cfg, strategy, bars, i) == Ok(State(portfolio.View(), pending, shown, signals, log))
    {
      StepDecides(cfg, strategy, bars, i, State(portfolio.View(), pending, shown, signals, log));
      var next := OneBar(cfg, strategy, bars, i, portfolio, pending, shown, signals, log);
      if next.Err? {
        return Err(next.error);
      }
      pending, shown, signals, log := next.value.0, next.value.1, next.value.2, next.value.3;
    }
    return Ok(State(portfolio.View(), pending, shown, signals, log));
  }

  // One iteration of the loop.
  method OneBar(cfg: Config, strategy: Strategy, bars: seq<Bar>, i: nat, portfolio: Portfolio,
                pending0: Option<Scheduled>, shown0: seq<Context>, signals0: seq<Signal>, log0: seq<LogEntry>)
    returns (r: Result<(Option<Scheduled>, seq<Context>, seq<Signal>, seq<LogEntry>), Failure>)
    requires i < |bars|
    modifies portfolio
    ensures r.Err? ==>
              Step(cfg, strategy, bars, i, old(State(portfolio.View(), pending0, shown0, signals0, log0)))
              == Err(r.error)
    ensures r.Ok? ==>
              Step(cfg, strategy, bars, i, old(State(portfolio.View(), pending0, shown0, signals0, log0)))
              == Ok(State(portfolio.View(), r.value.0, r.value.1, r.value.2, r.value.3))
  {
    hide PlaceAll, FillPending, MarketValue;
    var bar := bars[i];
    var filled := TryFill(cfg, bar, portfolio, pending0, shown0, signals0, log0);
    if filled.Err? {
      return Err(filled.error);
    }
    ghost var s1 := State(portfolio.View(), None, shown0, signals0, filled.value);
    portfolio.UpdateMark(bar.symbol, bar.close);
    var shown := shown0 + [ContextAt(bars, i, portfolio.View())];
    if !NoFuture(bars[..i + 1], bar.timestamp) {
      return Err(LookAhead);
    }
    var decision := strategy(shown);
    if decision.Raises? {
      return Err(StrategyFailed);
    }
    var signals := signals0 + [decision.signal];
    var log := filled.value + [SignalLogged(decision.signal)];
    ghost var s2 := State(portfolio.View(), None, shown, signals, log);
    assert Observe(strategy, bars, i, s1) == Ok((s2, decision.orders));
    var placed := PlaceOrders(cfg, bars, i, portfolio, None, shown, signals, log, decision.orders);
    if placed.Err? {
      return Err(placed.error);
    }
    portfolio.RecordEquity(bar.timestamp);
    return Ok((placed.value.0, shown, signals, placed.value.1));
  }

  method TryFill(cfg: Config, bar: Bar, portfolio: Portfolio, pending: Option<Scheduled>,
                 ghost shown: seq<Context>, ghost signals: seq<Signal>, log: seq<LogEntry>)
    returns (r: Result<seq<LogEntry>, Failure>)
    modifies portfolio
    ensures r.Err? ==>
              FillPending(cfg, bar, old(State(portfolio.View(), pending, shown, signals, log))) == Err(r.error)
    ensures r.Ok? ==>
              FillPending(cfg, bar, old(State(portfolio.View(), pending, shown, signals, log))) ==
              Ok(State(portfolio.View(), None, shown, signals, r.value))
  {
    if pending == None {
      return Ok(log);
    }
    var p := pending.value;
    if p.signalTs >= bar.timestamp {
      return Err(LookAhead);
    }
    var fill := Execute(cfg, p.order, Uuid(|portfolio.fills|), bar.timestamp, bar.open);
    if fill == None {
      return Err(InvalidFill);
    }
    var f := fill.value;
    if f.netCash < 0.0 && portfolio.cash + f.netCash < -EPS9 {
      return Ok(log + [CancelledLogged(bar.timestamp, p.order, "insufficient_cash_at_fill")]);
    }
    var ok := portfolio.ApplyFill(f);
    if !ok {
      return Err(ShortSale);
    }
    return Ok(log + [FillLogged(f)]);
  }

  method PlaceOrders(cfg: Config, bars: seq<Bar>, i: nat, portfolio: Portfolio, pending0: Option<Scheduled>,
                     ghost shown: seq<Context>, ghost signals: seq<Signal>, log0: seq<LogEntry>, orders: seq<Order>)
    returns (r: Result<(Option<Scheduled>, seq<LogEntry>), Failure>)
    requires i < |bars|
    ensures r.Err? ==>
              PlaceAll(cfg, bars, i, State(portfolio.View(), pending0, shown, signals, log0), orders) == Err(r.error)
    ensures r.Ok? ==>
              PlaceAll(cfg, bars, i, State(portfolio.View(), pending0, shown, signals, log0), orders) ==
              Ok(State(portfolio.View(), r.value.0, shown, signals, r.value.1))
  {
    var pending, log := pending0, log0;
    var bar := bars[i];
    ghost var start := State(portfolio.View(), pending0, shown, signals, log0);
    for j := 0 to |orders|
      invariant PlaceAll(cfg, bars, i, start, orders) ==
                PlaceAll(cfg, bars, i, State(portfolio.View(), pending, shown, signals, log), orders[j..])
    {
      var order := orders[j];
      ghost var now := State(portfolio.View(), pending, shown, signals, log);
      assert orders[j..][0] == order && orders[j..][1..] == orders[j + 1..];
      var position := Quantity(portfolio.View(), bar.symbol);
      var exposure := portfolio.TotalMarketValue();
      var verdict := CheckOrder(cfg.risk, order, bar.close, position, exposure);
      assert log + [] == log;
      if verdict.Some? {
        log := log + [RejectedLogged(bar.timestamp, order, verdict.value)];
      } else if i + 1 >= |bars| {
        log := log + [CancelledLogged(bar.timestamp, order, "no_next_bar_for_execution")];
      } else {
        if bars[i + 1].timestamp <= bar.timestamp {
          return Err(LookAhead);
        }
        if pending.Some? {
          log := log + [CancelledLogged(bar.timestamp, pending.value.order, "superseded")];
        }
        pending := Some(Scheduled(order, bar.timestamp));
        log := log + [ScheduledLogged(bar.timestamp, bars[i + 1].timestamp, order)];
      }
      assert Place(cfg, bars, i, now, order) == Ok(State(portfolio.View(), pending, shown, signals, log));
    }
    return Ok((pending, log));
  }
}
