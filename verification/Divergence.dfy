// Literal inputs on which the two engines part: each drops one hypothesis of the simulation and makes the drift
// comparison of phase13/drift.py report something. The last section is a session that ends on an illegal transition.

module Divergence {
  import opened Trading
  import opened Costs
  import opened Ledger
  import opened PaperOrders
  import opened MarketData
  import opened PaperRisk
  import opened PaperExecution
  import opened PaperBooks
  import opened PaperSessions
  import opened PaperAttempts
  import opened PaperLifecycle
  import opened PaperMoney
  import opened Strategies
  import opened Simulation
  import Risk
  import Backtest
  import Drift

  // ---- one market, two configurations

  const ROOMY := PaperRiskConfig(100.0, 1000.0, 1000.0, 1000.0, None, None, None)
  const BT := Backtest.Config(1000.0, EQUITY_DELIVERY, 0.0, CoreConfig(ROOMY))

  function Paper(policy: Policy, cap: Option<int>): Config {
    Config(ExecConfig("s", EQUITY_DELIVERY, 0.0, policy, 0.5), FeedConfig(None, false, false, {}, {}),
           ROOMY.(maxOrderCount := cap), 1000.0, false)
  }

  function BarAt(ts: int, price: real): Bar {
    Bar(ts, "X", price, price, price, price, 0.0)
  }

  function EventAt(id: string, n: int, price: real): Event {
    Event(id, n, BarAt(n, price), None, None)
  }

  const BARS := [BarAt(0, 10.0), BarAt(1, 10.0)]
  const EVENTS := [EventAt("a", 0, 10.0), EventAt("b", 1, 10.0)]
  const BUY := Signal(0, "X", BuySignal, None)

  function BuyOne(n: nat, symbol: string, orderType: OrderType): Order {
    Order(Uuid(n), 0, symbol, Buy, 1.0, orderType)
  }

  // On the first context one order of each type, of one share of the context's symbol; nothing after that.
  function Opens(types: seq<OrderType>): Strategy {
    (cs: seq<Context>) =>
      if |cs| == 1 then Decision(BUY, seq(|types|, i requires 0 <= i < |types| => BuyOne(i, cs[0].symbol, types[i])))
      else Decision(BUY, [])
  }

  // The same, but only where the context says nothing about membership.
  function OpensUnlabelled(): Strategy {
    (cs: seq<Context>) =>
      if |cs| == 1 && cs[0].membership == None then Decision(BUY, [BuyOne(0, cs[0].symbol, Market)])
      else Decision(BUY, [])
  }

  // The comparison of the two runs reports something.
  ghost predicate Drifts(strategy: Strategy, cfg: Config) {
    var r := Backtest.After(BT, strategy, BARS, 2);
    var s := Run(cfg, strategy, Opened(cfg), Ticks(EVENTS));
    && r.Ok?
    && !Drift.NothingFound(Drift.LoggedFills(r.value.log), Equity(r.value.book), r.value.book.cash, s.fills,
                           Equity(s.book.book), s.book.book.cash)
  }

  // ---- the registered rates, no slippage

  // Costs stay under one percent of the value.
  lemma Delivered(side: Side, q: real, price: real)
    requires q > 0.0 && price > 0.0
    ensures 0.0 <= CostOf(EQUITY_DELIVERY, side, q, price) <= Value(q, price) / 100.0
    ensures Slip(0.0, side, price).price == price
  {
    ValuePositive(q, price);
    hide Value;
  }

  // ---- the backtest fills one share at the second bar

  predicate OneShare(o: Order) {
    o.symbol == "X" && o.side == Buy && o.quantity == 1.0
  }

  ghost predicate Answers(strategy: Strategy, orders: seq<Order>, membership: Option<string>) {
    && (forall cs: seq<Context> :: |cs| == 1 && cs[0].symbol == "X" && cs[0].membership == membership ==>
          strategy(cs) == Decision(BUY, orders))
    && (forall cs: seq<Context> :: |cs| > 1 ==> strategy(cs) == Decision(BUY, []))
  }

  lemma TenEach()
    ensures Value(1.0, 10.0) == 10.0 && Value(0.0, 10.0) == 0.0 && Value(0.5, 10.0) == 5.0
  {
  }

  lemma ShareAccepted(o: Order)
    requires OneShare(o)
    ensures Risk.CheckOrder(BT.risk, o, 10.0, 0.0, 0.0) == None
  {
    hide Value;
    TenEach();
    assert BT.risk == Risk.RiskConfig(1000.0, 1000.0, 1000.0, false);
    assert Risk.PositionAfter(o.side, o.quantity, 0.0) == 1.0;
  }

  lemma {:induction false} LastPlaced(s: Backtest.State, orders: seq<Order>)
    requires Quantity(s.book, "X") == 0.0 && MarketValue(s.book) == 0.0
    requires forall o :: o in orders ==> OneShare(o)
    ensures var r := Backtest.PlaceAll(BT, BARS, 0, s, orders);
            && r.Ok? && r.value.(pending := s.pending, log := s.log) == s
            && r.value.pending == if orders == [] then s.pending
                                  else Some(Backtest.Scheduled(orders[|orders| - 1], 0))
    decreases |orders|
  {
    hide MarketValue, Quantity, Risk.CheckOrder;
    if orders != [] {
      assert orders[0] in orders;
      ShareAccepted(orders[0]);
      var r := Backtest.Place(BT, BARS, 0, s, orders[0]);
      assert r.Ok? && r.value.book == s.book;
      LastPlaced(r.value, orders[1..]);
    }
  }

  lemma NothingOwned(b: Book)
    requires b.positions == map[]
    ensures MarketValue(b) == 0.0 && forall s :: Quantity(b, s) == 0.0
  {
    assert MarketValues(b) == map[];
  }

  lemma FirstBar(strategy: Strategy, orders: seq<Order>)
    requires Answers(strategy, orders, None) && orders != [] && forall o :: o in orders ==> OneShare(o)
    ensures var r := Backtest.Step(BT, strategy, BARS, 0, Backtest.Start(BT));
            && r.Ok? && r.value.pending == Some(Backtest.Scheduled(orders[|orders| - 1], 0))
            && r.value.book.cash == 1000.0 && r.value.book.positions == map[] && r.value.book.fills == []
            && |r.value.shown| == 1
  {
    var s := Backtest.Start(BT);
    var seen := Backtest.Observe(strategy, BARS, 0, s);
    assert BARS[..1] == [BARS[0]] && Backtest.NoFuture(BARS[..1], 0);
    assert seen.Ok? && seen.value.1 == orders;
    NothingOwned(seen.value.0.book);
    LastPlaced(seen.value.0, orders);
    hide Backtest.PlaceAll, Record, Answers;
  }

  // The execution of one share at 10.
  lemma ShareExecuted(o: Order, id: Id)
    requires OneShare(o)
    ensures var f := Backtest.Execute(BT, o, id, 1, 10.0);
            f.Some? && f.value.quantity == 1.0 && -11.0 <= f.value.netCash < 0.0 && f.value.side == Buy
  {
    hide Value, CostOf, Slip;
    assert BT.costs == EQUITY_DELIVERY && BT.bps == 0.0;
    Delivered(Buy, 1.0, 10.0);
    TenEach();
  }

  lemma ShareFilled(s: Backtest.State, o: Order)
    requires OneShare(o) && s.pending == Some(Backtest.Scheduled(o, 0))
    requires s.book.cash == 1000.0 && s.book.positions == map[] && s.book.fills == []
    ensures var r := Backtest.FillPending(BT, BARS[1], s);
            r.Ok? && |r.value.book.fills| == 1 && r.value.book.fills[0].quantity == 1.0 && r.value.shown == s.shown
  {
    hide Backtest.Execute, AfterFill;
    ShareExecuted(o, Uuid(0));
    var f := Backtest.Execute(BT, o, Uuid(0), 1, 10.0).value;
    FillsAfter(s.book, f);
    FlatBuyTaken(s.book, f);
    hide Refuses, Backtest.Unaffordable;
  }

  lemma FillsAfter(b: Book, f: Fill)
    ensures AfterFill(b, f).fills == b.fills + [f]
  {
    hide HoldingAfter, GainOf, SlippageOf;
  }

  lemma FlatBuyTaken(b: Book, f: Fill)
    requires b.cash == 1000.0 && b.positions == map[] && f.side == Buy && f.quantity == 1.0 && f.netCash >= -11.0
    ensures !Backtest.Unaffordable(b, f) && !Refuses(b, f)
  {
  }

  lemma SecondBar(strategy: Strategy, orders: seq<Order>, s: Backtest.State, o: Order)
    requires Answers(strategy, orders, None) && OneShare(o) && s.pending == Some(Backtest.Scheduled(o, 0))
    requires s.book.cash == 1000.0 && s.book.positions == map[] && s.book.fills == [] && |s.shown| == 1
    ensures var r := Backtest.Step(BT, strategy, BARS, 1, s);
            r.Ok? && |r.value.book.fills| == 1 && r.value.book.fills[0].quantity == 1.0
  {
    ShareFilled(s, o);
    hide Backtest.FillPending, AfterFill;
    var filled := Backtest.FillPending(BT, BARS[1], s);
    assert BARS[..2] == BARS && Backtest.NoFuture(BARS[..2], 1);
    var seen := Backtest.Observe(strategy, BARS, 1, filled.value);
    assert seen.Ok? && seen.value.1 == [];
    assert Backtest.PlaceAll(BT, BARS, 1, seen.value.0, []) == Ok(seen.value.0);
    hide Backtest.PlaceAll, PointOf, Answers;
  }

  lemma BacktestFillsOne(strategy: Strategy, orders: seq<Order>)
    requires Answers(strategy, orders, None) && orders != [] && forall o :: o in orders ==> OneShare(o)
    ensures var r := Backtest.After(BT, strategy, BARS, 2);
            && r.Ok? && |Drift.LoggedFills(r.value.log)| == 1 && Drift.LoggedFills(r.value.log)[0].quantity == 1.0
  {
    FirstBar(strategy, orders);
    var s1 := Backtest.Step(BT, strategy, BARS, 0, Backtest.Start(BT)).value;
    SecondBar(strategy, orders, s1, orders[|orders| - 1]);
    assert Backtest.After(BT, strategy, BARS, 0) == Ok(Backtest.Start(BT));
    assert Backtest.After(BT, strategy, BARS, 1) == Ok(s1);
    Drift.RunLogs(BT, strategy, BARS, 2);
    hide Backtest.Step, Drift.LoggedFills, Answers;
  }

  // ---- the paper session's first event

  lemma ConfigFits(policy: Policy, cap: Option<int>)
    ensures ValidConfig(Paper(policy, cap)) && Fit(Paper(policy, cap), false)
  {
    DefaultCostsCovered();
    hide SellsCovered;
  }

  // Admitted, nothing queued, shown to the strategy.
  ghost function Shown(cfg: Config): Session {
    Observed(Admit(cfg, Opened(cfg), EVENTS[0]), EVENTS[0])
  }

  lemma ShownFirst(policy: Policy, cap: Option<int>)
    ensures var s := Shown(Paper(policy, cap));
            && s.started && !s.stopped && s.halt == None && s.pending == [] && s.intents == [] && s.fills == []
            && !s.kill.triggered && s.usage.orderCount == 0
            && s.book.book.positions == map[] && s.book.book.cash == 1000.0
            && s.feed == Commit(NOTHING_SEEN, EVENTS[0])
            && |s.shown| == 1 && s.shown[0].symbol == "X" && s.shown[0].membership == Some("TRUE")
  {
    assert ValidEvent(EVENTS[0]);
    hide MarketValue, Equity;
  }

  lemma FirstEvent(policy: Policy, cap: Option<int>, strategy: Strategy, orders: seq<Order>)
    requires Answers(strategy, orders, Some("TRUE"))
    ensures var cfg := Paper(policy, cap);
            var u := SubmitAll(cfg, Shown(cfg), EVENTS[0], BUY, orders);
            ProcessEvent(cfg, strategy, Opened(cfg), EVENTS[0])
            == u.(book := u.book.(book := Record(u.book.book, 0)))
  {
    var cfg := Paper(policy, cap);
    var s0, e := Opened(cfg), EVENTS[0];
    ShownFirst(policy, cap);
    assert e.bar.timestamp == 0;
    var s1 := Admit(cfg, s0, e);
    assert s0.started && !s0.stopped && s0.halt == None && s0.pending == [] && s1.halt == None && s1.pending == [];
    assert ExecuteQueue(cfg, s1, e, [], []) == (s1, []);
    assert ExecutePending(cfg, s1, e) == s1;
    hide Opened, Admit, Observed, SubmitAll, Record, ExecutePending;
  }

  // Whatever is rejected leaves the queue alone.
  lemma {:induction false} RejectedAll(cfg: Config, s: Session, e: Event, orders: seq<Order>)
    requires Names(s, s.pending)
    requires forall t: Session, o :: o in orders ==> Screened(cfg, t, e, BUY, o).status == Rejected
    ensures SubmitAll(cfg, s, e, BUY, orders).pending == s.pending
    decreases |orders|
  {
    hide Screened;
    if orders != [] {
      assert orders[0] in orders;
      RejectedAll(cfg, Submit(cfg, s, e, BUY, orders[0]), e, orders[1..]);
    }
  }

  // ---- later events

  // Only the walk over the queue fills, and a halt there is the event's halt.
  lemma FillsOfEvent(cfg: Config, strategy: Strategy, s: Session, e: Event)
    requires Running(s) && Issues(cfg.feed, s.feed, e) == [] && Names(s, s.pending)
    ensures var s1 := Admit(cfg, s, e);
            var q := ExecuteQueue(cfg, s1, e, s.pending, []).0;
            var t := ProcessEvent(cfg, strategy, s, e);
            t.fills == q.fills && (q.halt.Some? ==> t.halt == q.halt)
  {
    hide Issues, ExecuteQueue;
    var s1 := Admit(cfg, s, e);
    var s2 := ExecutePending(cfg, s1, e);
    if s2.halt == None {
      var s3 := Observed(s2, e);
      if strategy(s3.shown).Decision? {
        SubmitAllFrame(cfg, s3, e, strategy(s3.shown).signal, strategy(s3.shown).orders);
      }
      hide SubmitAll, Record;
    }
  }

  lemma SecondAdmitted(policy: Policy, cap: Option<int>)
    ensures var cfg := Paper(policy, cap);
            Issues(cfg.feed, Commit(NOTHING_SEEN, EVENTS[0]), EVENTS[1]) == []
  {
    assert ValidEvent(EVENTS[1]);
    assert EVENTS[1].id == "b" && EVENTS[0].id == "a" && "a" != "b";
  }

  lemma RunOfTwo(cfg: Config, strategy: Strategy)
    requires Names(Opened(cfg), Opened(cfg).pending)
    ensures Run(cfg, strategy, Opened(cfg), Ticks(EVENTS)) ==
            ProcessEvent(cfg, strategy, ProcessEvent(cfg, strategy, Opened(cfg), EVENTS[0]), EVENTS[1])
  {
    hide ProcessEvent;
    var cs := Ticks(EVENTS);
    assert cs[1..][1..] == [] && cs[1..][0] == cs[1];
    var s1 := ProcessEvent(cfg, strategy, Opened(cfg), EVENTS[0]);
    assert Run(cfg, strategy, s1, cs[1..]) == Run(cfg, strategy, ProcessEvent(cfg, strategy, s1, EVENTS[1]), []);
  }

  // ---- sessions that take nothing

  ghost predicate RejectsAll(cap: Option<int>, orders: seq<Order>) {
    forall t: Session, o :: o in orders ==>
      Screened(Paper(AllOrNothing, cap), t, EVENTS[0], BUY, o).status == Rejected
  }

  lemma NothingTaken(cap: Option<int>, strategy: Strategy, orders: seq<Order>)
    requires Answers(strategy, orders, Some("TRUE"))
    requires RejectsAll(cap, orders)
    ensures var cfg := Paper(AllOrNothing, cap); Run(cfg, strategy, Opened(cfg), Ticks(EVENTS)).fills == []
  {
    var cfg := Paper(AllOrNothing, cap);
    FirstEvent(AllOrNothing, cap, strategy, orders);
    ShownFirst(AllOrNothing, cap);
    var s := Shown(cfg);
    hide Screened, Shown;
    RejectedAll(cfg, s, EVENTS[0], orders);
    SubmitAllFrame(cfg, s, EVENTS[0], BUY, orders);
    RunOfTwo(cfg, strategy);
    var s1 := ProcessEvent(cfg, strategy, Opened(cfg), EVENTS[0]);
    SecondAdmitted(AllOrNothing, cap);
    assert s1.pending == [] && s1.fills == [] && Running(s1);
    hide ProcessEvent, SubmitAll, Issues, Opened, Run;
    FillsOfEvent(cfg, strategy, s1, EVENTS[1]);
    var t := Admit(cfg, s1, EVENTS[1]);
    assert ExecuteQueue(cfg, t, EVENTS[1], [], []) == (t, []);
  }

  lemma Unequal(strategy: Strategy, cfg: Config)
    requires var r := Backtest.After(BT, strategy, BARS, 2);
             r.Ok? && |Drift.LoggedFills(r.value.log)| == 1
    requires |Run(cfg, strategy, Opened(cfg), Ticks(EVENTS)).fills| != 1
    ensures Drifts(strategy, cfg)
  {
    var r := Backtest.After(BT, strategy, BARS, 2);
    var s := Run(cfg, strategy, Opened(cfg), Ticks(EVENTS));
    hide Run, Opened, Backtest.After, Drift.LoggedFills, Equity;
    assert Drift.Holds(Drift.FillCount, Drift.LoggedFills(r.value.log), Equity(r.value.book), r.value.book.cash,
                       s.fills, Equity(s.book.book), s.book.book.cash);
  }

  // ---- the hypotheses that do hold

  lemma SameMarket(policy: Policy, cap: Option<int>)
    ensures Replays(Paper(policy, cap), EVENTS, BARS, "X", 0) && Matched(BT, Paper(AllOrNothing, None), BARS)
  {
    ConfigFits(AllOrNothing, None);
    assert !Blank("X") by {
      assert "X"[0] == 'X';
    }
    assert Value(100.0 + EPS9, 10.0) == 1000.0 + 10.0 * EPS9;
    hide Value, SellsCovered;
  }

  function OrdersOf(types: seq<OrderType>): seq<Order> {
    seq(|types|, i requires 0 <= i < |types| => BuyOne(i, "X", types[i]))
  }

  lemma OpensAnswers(types: seq<OrderType>, membership: Option<string>)
    ensures Answers(Opens(types), OrdersOf(types), membership)
  {
    forall cs: seq<Context> | |cs| == 1 && cs[0].symbol == "X"
      ensures Opens(types)(cs) == Decision(BUY, OrdersOf(types))
    {
      assert Opens(types)(cs).orders == OrdersOf(types);
    }
  }

  // What both engines are asked.
  lemma Asked(types: seq<OrderType>)
    ensures Answers(Opens(types), OrdersOf(types), None) && Answers(Opens(types), OrdersOf(types), Some("TRUE"))
    ensures |OrdersOf(types)| == |types|
    ensures forall o :: o in OrdersOf(types) ==> OneShare(o) && o.orderType in types
  {
    hide Answers;
    OpensAnswers(types, None);
    OpensAnswers(types, Some("TRUE"));
  }

  lemma OpensFits(types: seq<OrderType>)
    ensures TradesContextSymbol(Opens(types)) && PositiveLots(Opens(types)) && IgnoresMembership(Opens(types))
  {
    OpensIgnores(types);
    OpensBounded(types);
    hide Opens, Blanked;
  }

  lemma OpensMarkets(types: seq<OrderType>)
    requires forall t :: t in types ==> t == Market
    ensures MarketOrdersOnly(Opens(types))
  {
    OpensBounded(types);
    hide Opens;
  }

  lemma OpensOne(t: OrderType)
    ensures AtMostOneOrder(Opens([t])) && (t == Market ==> Comparable(Opens([t])))
  {
    OpensBounded([t]);
    OpensFits([t]);
    if t == Market {
      OpensMarkets([t]);
    }
    hide Opens, Blanked, IgnoresMembership;
  }

  lemma OpensBounded(types: seq<OrderType>)
    ensures forall cs: seq<Context> {:trigger Opens(types)(cs)} :: OpensAt(types, cs)
  {
    hide OpensAt;
    forall cs: seq<Context>
      ensures OpensAt(types, cs)
    {
      OpensEach(types, cs);
    }
  }

  lemma OpensIgnores(types: seq<OrderType>)
    ensures IgnoresMembership(Opens(types))
  {
    forall cs: seq<Context>
      ensures Opens(types)(cs) == Opens(types)(Blanked(cs))
    {
      if |cs| == 1 {
        assert Opens(types)(cs).orders == Opens(types)(Blanked(cs)).orders;
      }
    }
  }

  // What the strategy answers to any contexts.
  predicate OpensAt(types: seq<OrderType>, cs: seq<Context>) {
    var d := Opens(types)(cs);
    && d.Decision? && |d.orders| <= |types|
    && forall o :: o in d.orders ==>
         && cs != [] && o.symbol == cs[|cs| - 1].symbol && o.quantity > 0.0 && o.orderType in types
  }

  lemma OpensEach(types: seq<OrderType>, cs: seq<Context>)
    ensures OpensAt(types, cs)
  {
    var d := Opens(types)(cs);
    if |cs| == 1 {
      forall o | o in d.orders
        ensures o.symbol == cs[0].symbol && o.quantity > 0.0 && o.orderType in types
      {
        var i :| 0 <= i < |types| && d.orders[i] == o;
      }
    }
  }

  // ---- one hypothesis dropped at a time

  // A limit order: the backtest, which looks at no order type, fills it; the paper session rejects it.
  lemma LimitOrderDrifts()
    ensures var st := Opens([Limit]);
            && TradesContextSymbol(st) && PositiveLots(st) && IgnoresMembership(st) && AtMostOneOrder(st)
            && Matched(BT, Paper(AllOrNothing, None), BARS)
            && Replays(Paper(AllOrNothing, None), EVENTS, BARS, "X", 0)
            && Drifts(st, Paper(AllOrNothing, None))
  {
    hide *;
    OpensFits([Limit]);
    OpensOne(Limit);
    SameMarket(AllOrNothing, None);
    Asked([Limit]);
    LimitsRejected(OrdersOf([Limit]));
    RejectedDrifts(Opens([Limit]), OrdersOf([Limit]), None);
  }

  // What the backtest fills and the paper session rejects.
  lemma RejectedDrifts(strategy: Strategy, orders: seq<Order>, cap: Option<int>)
    requires Answers(strategy, orders, None) && Answers(strategy, orders, Some("TRUE"))
    requires orders != [] && forall o :: o in orders ==> OneShare(o)
    requires RejectsAll(cap, orders)
    ensures Drifts(strategy, Paper(AllOrNothing, cap))
  {
    hide *;
    BacktestFillsOne(strategy, orders);
    NothingTaken(cap, strategy, orders);
    Unequal(strategy, Paper(AllOrNothing, cap));
  }

  lemma LimitsRejected(orders: seq<Order>)
    requires forall o :: o in orders ==> o.orderType in [Limit]
    ensures RejectsAll(None, orders)
  {
    hide Blank, Screen, MarketValue, Equity, Quantity;
  }

  // A ceiling of no orders at all, which the backtest's filter does not know.
  lemma CeilingDrifts()
    ensures var st := Opens([Market]);
            && Comparable(st) && Matched(BT, Paper(AllOrNothing, None), BARS)
            && Replays(Paper(AllOrNothing, Some(0)), EVENTS, BARS, "X", 0)
            && Drifts(st, Paper(AllOrNothing, Some(0)))
  {
    hide *;
    OpensOne(Market);
    SameMarket(AllOrNothing, Some(0));
    Asked([Market]);
    CeilingRejects(OrdersOf([Market]));
    RejectedDrifts(Opens([Market]), OrdersOf([Market]), Some(0));
  }

  lemma CeilingRejects(orders: seq<Order>)
    ensures RejectsAll(Some(0), orders)
  {
    hide Blank, Risk.CheckOrder, MarketValue, Equity, Quantity, Value;
  }

  lemma UnlabelledFits()
    ensures var st := OpensUnlabelled();
            && TradesContextSymbol(st) && PositiveLots(st) && MarketOrdersOnly(st) && AtMostOneOrder(st)
            && Answers(st, [BuyOne(0, "X", Market)], None) && Answers(st, [], Some("TRUE"))
    ensures forall o :: o in [BuyOne(0, "X", Market)] ==> OneShare(o)
  {
  }

  // A strategy that looks at the membership field, which only the paper session sets.
  lemma MembershipDrifts()
    ensures var st := OpensUnlabelled();
            && TradesContextSymbol(st) && PositiveLots(st) && MarketOrdersOnly(st) && AtMostOneOrder(st)
            && Matched(BT, Paper(AllOrNothing, None), BARS)
            && Replays(Paper(AllOrNothing, None), EVENTS, BARS, "X", 0)
            && Drifts(st, Paper(AllOrNothing, None))
  {
    hide *;
    UnlabelledFits();
    SameMarket(AllOrNothing, None);
    AskedAndNot(OpensUnlabelled());
  }

  // Asked by the backtest's contexts only.
  lemma AskedAndNot(strategy: Strategy)
    requires Answers(strategy, [BuyOne(0, "X", Market)], None) && Answers(strategy, [], Some("TRUE"))
    ensures Drifts(strategy, Paper(AllOrNothing, None))
  {
    assert OneShare(BuyOne(0, "X", Market));
    hide *;
    BacktestFillsOne(strategy, [BuyOne(0, "X", Market)]);
    NothingAsked(strategy);
    Unequal(strategy, Paper(AllOrNothing, None));
  }

  lemma NothingAsked(strategy: Strategy)
    requires Answers(strategy, [], Some("TRUE"))
    ensures var cfg := Paper(AllOrNothing, None); Run(cfg, strategy, Opened(cfg), Ticks(EVENTS)).fills == []
  {
    hide Answers, Run, Opened;
    NothingTaken(None, strategy, []);
  }

  // ---- sessions that take market orders

  predicate Waiting(i: Intent) {
    i.status == Accepted && i.filled == 0.0 && i.scheduled == Some(1) && OneShare(i.order)
  }

  lemma TakenShare(policy: Policy, s: Session, o: Order)
    requires OneShare(o) && o.orderType == Market && !s.kill.triggered && s.book.book.positions == map[]
    ensures Waiting(Screened(Paper(policy, None), s, EVENTS[0], BUY, o))
  {
    var cfg, e := Paper(policy, None), EVENTS[0];
    NothingOwned(s.book.book);
    assert !Blank("X") by {
      assert "X"[0] == 'X';
    }
    ScreenedAccepts(cfg, s, e, BUY, o, "X");
    var i := Screened(cfg, s, e, BUY, o);
    RoomForOne(s.usage, i.order, Equity(s.book.book));
    hide Screened, Screen, MarketValue, Equity, Quantity, Blank;
    assert e.bar.close == 10.0 && e.bar.symbol == "X" && cfg.risk == ROOMY && e.seqNo == 0;
  }

  lemma RoomForOne(u: Usage, o: Order, equity: real)
    requires OneShare(o)
    ensures Screen(ROOMY, u, false, o, 10.0, 0.0, 0.0, equity) == None
  {
    hide Value;
    TenEach();
    assert Risk.PositionAfter(o.side, o.quantity, 0.0) == 1.0;
    assert CoreConfig(ROOMY) == Risk.RiskConfig(1000.0, 1000.0, 1000.0, false);
  }

  // One order more, waiting in the queue.
  lemma OneTaken(policy: Policy, s: Session, o: Order)
    requires OneShare(o) && o.orderType == Market && !s.kill.triggered && s.book.book.positions == map[]
    requires Names(s, s.pending)
    ensures var t := Submit(Paper(policy, None), s, EVENTS[0], BUY, o);
            && |t.intents| == |s.intents| + 1 && t.intents[..|s.intents|] == s.intents
            && Waiting(t.intents[|s.intents|]) && t.pending == s.pending + [|s.intents|]
            && t.kill == s.kill && t.book == s.book
  {
    TakenShare(policy, s, o);
    hide Screened, Charged;
  }

  // n shares ordered and waiting.
  ghost predicate Queued(s: Session, n: nat) {
    |s.intents| == n && |s.pending| == n && forall j :: 0 <= j < n ==> s.pending[j] == j && Waiting(s.intents[j])
  }

  // The session between the two events.
  ghost predicate BetweenEvents(s: Session, n: nat) {
    && Running(s) && s.fills == [] && s.book.book.cash == 1000.0 && s.book.book.positions == map[]
    && s.feed == Commit(NOTHING_SEEN, EVENTS[0]) && |s.shown| == 1 && Queued(s, n)
  }

  lemma OneMarketTaken(policy: Policy, s: Session, o: Order)
    requires OneShare(o) && o.orderType == Market && !s.kill.triggered && s.book.book.positions == map[]
    requires s.intents == [] && s.pending == []
    ensures var t := SubmitAll(Paper(policy, None), s, EVENTS[0], BUY, [o]);
            t.pending == [0] && |t.intents| == 1 && Waiting(t.intents[0])
  {
    OneTaken(policy, s, o);
    var cfg := Paper(policy, None);
    var t := Submit(cfg, s, EVENTS[0], BUY, o);
    hide Submit, Waiting;
    assert [o][1..] == [] && SubmitAll(cfg, t, EVENTS[0], BUY, []) == t;
  }

  lemma SubmitsTwo(cfg: Config, s: Session, e: Event, signal: Signal, o: Order, o2: Order)
    requires Names(s, s.pending)
    ensures SubmitAll(cfg, s, e, signal, [o, o2]) == Submit(cfg, Submit(cfg, s, e, signal, o), e, signal, o2)
  {
    hide Submit;
    var t := Submit(cfg, s, e, signal, o);
    assert [o, o2][1..] == [o2] && [o2][1..] == [];
    assert SubmitAll(cfg, t, e, signal, [o2]) == SubmitAll(cfg, Submit(cfg, t, e, signal, o2), e, signal, []);
  }

  lemma TwoMarketsTaken(policy: Policy, s: Session, o: Order, o2: Order)
    requires OneShare(o) && o.orderType == Market && OneShare(o2) && o2.orderType == Market
    requires !s.kill.triggered && s.book.book.positions == map[] && s.intents == [] && s.pending == []
    ensures var t := SubmitAll(Paper(policy, None), s, EVENTS[0], BUY, [o, o2]);
            t.pending == [0, 1] && |t.intents| == 2 && Waiting(t.intents[0]) && Waiting(t.intents[1])
  {
    assert |EVENTS| == 2;
    NoNames(s);
    hide *;
    var cfg := Paper(policy, None);
    OneTaken(policy, s, o);
    var t := Submit(cfg, s, EVENTS[0], BUY, o);
    OneTaken(policy, t, o2);
    SubmitsTwo(cfg, s, EVENTS[0], BUY, o, o2);
    GrownTwice(t.intents, Submit(cfg, t, EVENTS[0], BUY, o2).intents);
  }

  lemma GrownTwice(a: seq<Intent>, b: seq<Intent>)
    requires |a| == 1 && |b| == 2 && b[..1] == a
    ensures b[0] == a[0]
  {
    assert b[0] == b[..1][0];
  }

  lemma FewTaken(policy: Policy, s: Session, orders: seq<Order>)
    requires (|orders| == 1 || |orders| == 2) && forall o :: o in orders ==> OneShare(o) && o.orderType == Market
    requires !s.kill.triggered && s.book.book.positions == map[] && s.intents == [] && s.pending == []
    ensures Queued(SubmitAll(Paper(policy, None), s, EVENTS[0], BUY, orders), |orders|)
  {
    assert orders[0] in orders;
    if |orders| == 1 {
      assert orders == [orders[0]];
      OneMarketTaken(policy, s, orders[0]);
    } else {
      assert orders[1] in orders && orders == [orders[0], orders[1]];
      TwoMarketsTaken(policy, s, orders[0], orders[1]);
    }
    hide Waiting, SubmitAll;
  }

  lemma BetweenFrame(s: Session, u: Session, t: Session, n: nat)
    requires Running(s) && s.fills == [] && s.book.book.cash == 1000.0 && s.book.book.positions == map[]
    requires s.feed == Commit(NOTHING_SEEN, EVENTS[0]) && |s.shown| == 1 && Queued(u, n)
    requires u.book == s.book && u.fills == s.fills && u.halt == s.halt && u.feed == s.feed && u.shown == s.shown
    requires u.started == s.started && u.stopped == s.stopped
    requires t == u.(book := u.book.(book := Record(u.book.book, 0)))
    ensures BetweenEvents(t, n)
  {
    hide Waiting, PointOf, Commit;
  }

  lemma MarketsTaken(policy: Policy, strategy: Strategy, orders: seq<Order>)
    requires Answers(strategy, orders, Some("TRUE")) && (|orders| == 1 || |orders| == 2)
    requires forall o :: o in orders ==> OneShare(o) && o.orderType == Market
    ensures var cfg := Paper(policy, None);
            BetweenEvents(ProcessEvent(cfg, strategy, Opened(cfg), EVENTS[0]), |orders|)
  {
    var cfg := Paper(policy, None);
    FirstEvent(policy, None, strategy, orders);
    ShownFirst(policy, None);
    var s, u := Shown(cfg), SubmitAll(cfg, Shown(cfg), EVENTS[0], BUY, orders);
    assert Names(s, s.pending) && Running(s);
    hide *;
    FewTaken(policy, s, orders);
    SubmitAllFrame(cfg, s, EVENTS[0], BUY, orders);
    BetweenFrame(s, u, ProcessEvent(cfg, strategy, Opened(cfg), EVENTS[0]), |orders|);
  }

  // ---- attempts at the open of 10

  // A due buy of up to one share that the session can pay for is filled and applied.
  lemma BuyFilled(policy: Policy, s: Session, e: Event, k: nat)
    requires var cfg := Paper(policy, None);
             && Life(cfg, s) && Money(cfg, s) && s.halt == None && k < |s.intents| && Open(s.intents[k])
             && Due(s.intents[k], e) && s.intents[k].order.side == Buy && s.intents[k].order.quantity == 1.0
    requires e.bar.open == 10.0 && s.book.book.cash >= 11.0 && Quantity(s.book.book, e.bar.symbol) >= 0.0
    ensures var cfg := Paper(policy, None);
            var q := NextQuantity(cfg.exec, s.intents[k]);
            var s' := ExecuteOne(cfg, s, e, k);
            && s'.halt == None && |s'.fills| == |s.fills| + 1 && s'.fills[|s.fills|].quantity == q
            && s.book.book.cash - 11.0 <= s'.book.book.cash <= s.book.book.cash
            && Quantity(s'.book.book, e.bar.symbol) == Quantity(s.book.book, e.bar.symbol) + q
  {
    var cfg, i := Paper(policy, None), s.intents[k];
    ConfigFits(policy, None);
    IntentWellFormed(cfg, s, k);
    OpenRemains(cfg.exec, i);
    var q := NextQuantity(cfg.exec, i);
    assert 0.0 < q <= 1.0;
    AttemptAffordable(policy, s, e, k);
    RefusedIff(cfg, s, e, k);
    ExecuteOneShape(cfg, s, e, k);
    var a := AttemptAt(cfg, s, e, k);
    hide ExecuteOne, AttemptAt, Life, Money, WellFormed, NextQuantity, ValidConfig, Due, Fit;
    AppliedQuantity(s.book, a.outcome.fill, e.bar.symbol);
    CashAfter(s.book.book, a.outcome.fill);
    hide Applied, AfterFill, Quantity, Paper;
  }

  lemma CashAfter(b: Book, f: Fill)
    requires !Refuses(b, f)
    ensures AfterFill(b, f).cash == b.cash + f.netCash
  {
    hide HoldingAfter, GainOf, SlippageOf;
  }

  lemma AttemptAffordable(policy: Policy, s: Session, e: Event, k: nat)
    requires var cfg := Paper(policy, None);
             && Life(cfg, s) && s.halt == None && k < |s.intents| && Open(s.intents[k])
             && Due(s.intents[k], e) && s.intents[k].order.side == Buy && s.intents[k].order.quantity == 1.0
    requires e.bar.open == 10.0 && s.book.book.cash >= 11.0
    ensures var cfg := Paper(policy, None);
            var q := NextQuantity(cfg.exec, s.intents[k]);
            var a := AttemptAt(cfg, s, e, k);
            && a.outcome.FilledWith?
            && var f := a.outcome.fill;
               f.quantity == q && f.side == Buy && f.symbol == e.bar.symbol && -11.0 <= f.netCash < 0.0
  {
    var cfg, i := Paper(policy, None), s.intents[k];
    ConfigFits(policy, None);
    IntentWellFormed(cfg, s, k);
    OpenRemains(cfg.exec, i);
    var q := NextQuantity(cfg.exec, i);
    var cash, position := s.book.book.cash, Quantity(s.book.book, e.bar.symbol);
    assert i.order.symbol == e.bar.symbol && VenueOk(s.venue) && !Closed(cfg, e) && 0.0 < q <= 1.0;
    hide Life, Quantity, Due;
    ShareFits(policy, s.venue, i, q, e.bar.timestamp, cash, position);
    hide ExecuteAtOpen, WellFormed, VenueOk, NextQuantity;
  }

  lemma ShareFits(policy: Policy, v: Venue, i: Intent, q: real, at: int, cash: real, position: real)
    requires var exec := Paper(policy, None).exec;
             && WellFormed(exec, i) && Open(i) && VenueOk(v) && i.order.side == Buy && q == NextQuantity(exec, i)
             && 0.0 < q <= 1.0 && cash >= 11.0
    ensures var a := ExecuteAtOpen(Paper(policy, None).exec, v, i, at, 10.0, cash, position, false, false);
            && a.outcome.FilledWith?
            && var f := a.outcome.fill;
               f.quantity == q && f.side == Buy && f.symbol == i.order.symbol && -11.0 <= f.netCash < 0.0
  {
    var exec := Paper(policy, None).exec;
    assert exec.costs == EQUITY_DELIVERY && exec.bps == 0.0 && exec.ratio == 0.5;
    Delivered(Buy, q, 10.0);
    assert 0.0 < Value(q, 10.0) <= 10.0;
    Attempted(exec, v, i, at, 10.0, cash, position, false);
    ProposedShape(exec, v.fillSeq + 1, i, q, at, 10.0);
    hide ExecuteAtOpen, ProposedFill, NextQuantity, WellFormed, VenueOk, CostOf, Slip, Value, Paper;
  }

  // ---- the second event fills everything in the queue

  function Part(policy: Policy): real {
    if policy == AllOrNothing then 1.0 else 0.5
  }

  // A due share in a session about to walk its queue.
  ghost predicate Payable(policy: Policy, s: Session, todo: seq<nat>) {
    && Life(Paper(policy, None), s) && Money(Paper(policy, None), s) && s.halt == None
    && s.feed.lastSeq == Some(1) && s.book.book.cash >= 11.0 * |todo| as real && Quantity(s.book.book, "X") >= 0.0
    && Names(s, todo)
    && (forall j :: 0 <= j < |todo| ==> Waiting(s.intents[todo[j]]))
    && (forall j, l :: 0 <= j < l < |todo| ==> todo[j] != todo[l])
  }

  lemma WaitingDue(policy: Policy, i: Intent)
    requires Waiting(i)
    ensures Open(i) && Due(i, EVENTS[1]) && NextQuantity(Paper(policy, None).exec, i) == Part(policy)
    ensures i.order.side == Buy && i.order.quantity == 1.0 && i.filled == 0.0 && 0.0 < Part(policy) <= 1.0
  {
    assert Value(1.0, 0.5) == 0.5;
    hide Value;
  }

  lemma PayableFirst(policy: Policy, s: Session, todo: seq<nat>)
    requires todo != [] && Payable(policy, s, todo)
    ensures Life(Paper(policy, None), s) && Money(Paper(policy, None), s) && s.halt == None
    ensures todo[0] < |s.intents| && Waiting(s.intents[todo[0]]) && s.feed.lastSeq == Some(1)
    ensures s.book.book.cash >= 11.0 && Quantity(s.book.book, "X") >= 0.0
    ensures EVENTS[1].bar.open == 10.0 && EVENTS[1].bar.symbol == "X" && EVENTS[1].seqNo == 1
  {
    hide Life, Money, Paper, Quantity, Waiting;
  }

  lemma ShareTaken(policy: Policy, s: Session, todo: seq<nat>)
    requires todo != [] && Payable(policy, s, todo)
    ensures var s' := ExecuteOne(Paper(policy, None), s, EVENTS[1], todo[0]);
            && Due(s.intents[todo[0]], EVENTS[1]) && Payable(policy, s', todo[1..])
            && |s'.fills| == |s.fills| + 1 && s'.fills[|s.fills|].quantity == Part(policy)
            && s'.fills[..|s.fills|] == s.fills
  {
    assert |EVENTS| == 2;
    hide *;
    PayableFirst(policy, s, todo);
    WaitingDue(policy, s.intents[todo[0]]);
    ShareBought(policy, s, EVENTS[1], todo[0]);
    ShareKeeps(policy, s, EVENTS[1], todo[0]);
    PayableNext(policy, s, todo, ExecuteOne(Paper(policy, None), s, EVENTS[1], todo[0]));
  }

  // One waiting share meets the open.
  ghost predicate ShareDue(policy: Policy, s: Session, e: Event, k: nat) {
    && Life(Paper(policy, None), s) && Money(Paper(policy, None), s) && s.halt == None
    && s.feed.lastSeq == Some(1) && e == EVENTS[1] && k < |s.intents| && Waiting(s.intents[k])
    && s.book.book.cash >= 11.0 && Quantity(s.book.book, "X") >= 0.0
  }

  lemma ShareBought(policy: Policy, s: Session, e: Event, k: nat)
    requires ShareDue(policy, s, e, k)
    ensures var s' := ExecuteOne(Paper(policy, None), s, e, k);
            && s'.halt == None && |s'.fills| == |s.fills| + 1 && s'.fills[|s.fills|].quantity == Part(policy)
            && s'.book.book.cash >= s.book.book.cash - 11.0
            && Quantity(s'.book.book, "X") >= Quantity(s.book.book, "X")
  {
    WaitingDue(policy, s.intents[k]);
    assert e.bar.open == 10.0 && e.bar.symbol == "X";
    hide Life, Money, Paper, Quantity, Due, Part, ExecuteOne, NextQuantity, Waiting;
    BuyFilled(policy, s, e, k);
  }

  lemma ShareKeeps(policy: Policy, s: Session, e: Event, k: nat)
    requires ShareDue(policy, s, e, k)
    ensures var cfg := Paper(policy, None);
            var s' := ExecuteOne(cfg, s, e, k);
            && Life(cfg, s') && Money(cfg, s') && s'.feed == s.feed && |s'.intents| == |s.intents|
            && (forall j :: 0 <= j < |s.intents| && j != k ==> s'.intents[j] == s.intents[j])
            && |s.fills| <= |s'.fills| && s'.fills[..|s.fills|] == s.fills
  {
    var cfg := Paper(policy, None);
    ConfigFits(policy, None);
    WaitingDue(policy, s.intents[k]);
    assert e.seqNo == 1;
    hide *;
    FitCovers(cfg);
    LifeAfterOne(cfg, s, e, k);
    MoneyAfterOne(cfg, s, e, k);
    ExecuteOneGrows(cfg, s, e, k);
  }

  lemma ExecuteOneGrows(cfg: Config, s: Session, e: Event, k: nat)
    requires k < |s.intents| && s.halt == None
    ensures var s' := ExecuteOne(cfg, s, e, k);
            && s'.feed == s.feed && (forall j :: 0 <= j < |s.intents| && j != k ==> s'.intents[j] == s.intents[j])
            && |s.fills| <= |s'.fills| && s'.fills[..|s.fills|] == s.fills
  {
    ExecuteOneShape(cfg, s, e, k);
    hide ExecuteOne, AttemptAt, Reschedule, Applied, CannotApply;
  }

  lemma FitCovers(cfg: Config)
    requires Fit(cfg, false)
    ensures SellsCovered(cfg.exec.costs)
  {
    hide SellsCovered, ValidConfig;
  }

  lemma PayableNext(policy: Policy, s: Session, todo: seq<nat>, s': Session)
    requires todo != [] && Payable(policy, s, todo)
    requires Life(Paper(policy, None), s') && Money(Paper(policy, None), s') && s'.halt == None && s'.feed == s.feed
    requires s'.book.book.cash >= s.book.book.cash - 11.0 && Quantity(s'.book.book, "X") >= Quantity(s.book.book, "X")
    requires |s'.intents| == |s.intents|
    requires forall j :: 0 <= j < |s.intents| && j != todo[0] ==> s'.intents[j] == s.intents[j]
    ensures Payable(policy, s', todo[1..])
  {
    hide Life, Money, Paper, Quantity, Waiting;
  }

  lemma {:induction false} QueueFilled(policy: Policy, s: Session, todo: seq<nat>, still: seq<nat>)
    requires Payable(policy, s, todo) && Names(s, still)
    ensures var t := ExecuteQueue(Paper(policy, None), s, EVENTS[1], todo, still).0;
            && t.halt == None && |t.fills| == |s.fills| + |todo| && t.fills[..|s.fills|] == s.fills
            && forall j :: |s.fills| <= j < |t.fills| ==> t.fills[j].quantity == Part(policy)
    decreases |todo|
  {
    if todo != [] {
      assert |EVENTS| == 2 && s.halt == None && Names(s, todo);
      hide *;
      ShareTaken(policy, s, todo);
      var cfg, k := Paper(policy, None), todo[0];
      QueueStep(cfg, s, EVENTS[1], todo, still);
      var s' := ExecuteOne(cfg, s, EVENTS[1], k);
      var still' := if s'.intents[k].status == PartiallyFilled then still + [k] else still;
      QueueFilled(policy, s', todo[1..], still');
      GrownFills(s.fills, s'.fills, ExecuteQueue(cfg, s', EVENTS[1], todo[1..], still').0.fills, Part(policy));
    }
  }

  lemma GrownFills(a: seq<Fill>, b: seq<Fill>, c: seq<Fill>, q: real)
    requires |b| == |a| + 1 && b[..|a|] == a && b[|a|].quantity == q
    requires |b| <= |c| && c[..|b|] == b && forall j :: |b| <= j < |c| ==> c[j].quantity == q
    ensures c[..|a|] == a && forall j :: |a| <= j < |c| ==> c[j].quantity == q
  {
    assert c[..|a|] == c[..|b|][..|a|];
    assert c[|a|] == c[..|b|][|a|];
  }

  lemma AdmittedPayable(policy: Policy, s: Session, n: nat)
    requires BetweenEvents(s, n) && n <= 2
    requires Alive(Paper(policy, None), s) && Money(Paper(policy, None), s)
    ensures var cfg := Paper(policy, None);
            && Issues(cfg.feed, s.feed, EVENTS[1]) == [] && Payable(policy, Admit(cfg, s, EVENTS[1]), s.pending)
            && Admit(cfg, s, EVENTS[1]).fills == [] && |s.pending| == n && Running(s) && Names(s, s.pending)
  {
    var cfg, e := Paper(policy, None), EVENTS[1];
    SecondAdmitted(policy, None);
    AdmitLife(cfg, s, e);
    AdmitKept(cfg, s, Admit(cfg, s, e), false);
    assert e.seqNo == 1;
    hide Life, Money, Issues, Paper, Waiting;
  }

  lemma SecondEventFills(policy: Policy, strategy: Strategy, s: Session, n: nat)
    requires BetweenEvents(s, n) && 1 <= n <= 2
    requires Alive(Paper(policy, None), s) && Money(Paper(policy, None), s)
    ensures Names(s, s.pending)
    ensures var t := ProcessEvent(Paper(policy, None), strategy, s, EVENTS[1]);
            |t.fills| == n && t.fills[0].quantity == Part(policy)
  {
    assert |EVENTS| == 2;
    hide *;
    var cfg, e := Paper(policy, None), EVENTS[1];
    AdmittedPayable(policy, s, n);
    NoNames(Admit(cfg, s, e));
    QueueFilled(policy, Admit(cfg, s, e), s.pending, []);
    FillsOfEvent(cfg, strategy, s, e);
  }

  // The paper session fills every share ordered at the first event, or its first part.
  lemma SharesFilled(policy: Policy, strategy: Strategy, orders: seq<Order>)
    requires Answers(strategy, orders, Some("TRUE")) && (|orders| == 1 || |orders| == 2)
    requires forall o :: o in orders ==> OneShare(o) && o.orderType == Market
    ensures var cfg := Paper(policy, None);
            var t := Run(cfg, strategy, Opened(cfg), Ticks(EVENTS));
            |t.fills| == |orders| && t.fills[0].quantity == Part(policy)
  {
    assert |EVENTS| == 2;
    hide *;
    var cfg := Paper(policy, None);
    FirstKeeps(policy, strategy);
    MarketsTaken(policy, strategy, orders);
    RunOfTwo(cfg, strategy);
    SecondEventFills(policy, strategy, ProcessEvent(cfg, strategy, Opened(cfg), EVENTS[0]), |orders|);
  }

  lemma FirstKeeps(policy: Policy, strategy: Strategy)
    ensures var cfg := Paper(policy, None);
            Alive(cfg, Opened(cfg)) && Names(Opened(cfg), Opened(cfg).pending)
    ensures var cfg := Paper(policy, None);
            var s := ProcessEvent(cfg, strategy, Opened(cfg), EVENTS[0]);
            Alive(cfg, s) && Money(cfg, s)
  {
    var cfg := Paper(policy, None);
    ConfigFits(policy, None);
    OpenedAlive(cfg);
    hide Money, ProcessEvent, Alive, ValidConfig, SellsCovered, Fit, Opened, Paper;
    AliveNames(cfg, Opened(cfg));
    OpenedKept(cfg, false);
    EventLife(cfg, strategy, Opened(cfg), EVENTS[0]);
    EventKept(cfg, strategy, Opened(cfg), EVENTS[0], false);
  }

  // Two orders at one close: the backtest's single slot keeps the second, the paper session fills both.
  lemma TwoOrdersDrift()
    ensures var st := Opens([Market, Market]);
            && TradesContextSymbol(st) && PositiveLots(st) && IgnoresMembership(st) && MarketOrdersOnly(st)
            && Matched(BT, Paper(AllOrNothing, None), BARS)
            && Replays(Paper(AllOrNothing, None), EVENTS, BARS, "X", 0)
            && Drifts(st, Paper(AllOrNothing, None))
  {
    hide *;
    var types := [Market, Market];
    OpensFits(types);
    OpensMarkets(types);
    SameMarket(AllOrNothing, None);
    Asked(types);
    TwoFill(Opens(types), OrdersOf(types));
  }

  lemma TwoFill(strategy: Strategy, orders: seq<Order>)
    requires Answers(strategy, orders, None) && Answers(strategy, orders, Some("TRUE"))
    requires |orders| == 2 && forall o :: o in orders ==> OneShare(o) && o.orderType == Market
    ensures Drifts(strategy, Paper(AllOrNothing, None))
  {
    hide *;
    BacktestFillsOne(strategy, orders);
    SharesFilled(AllOrNothing, strategy, orders);
    Unequal(strategy, Paper(AllOrNothing, None));
  }

  // Partial fills: the backtest fills the share at once, the paper session half of it.
  lemma PartialDrifts()
    ensures var st := Opens([Market]);
            && Comparable(st) && Matched(BT, Paper(AllOrNothing, None), BARS)
            && Replays(Paper(AllowPartial, None), EVENTS, BARS, "X", 0)
            && Drifts(st, Paper(AllowPartial, None))
  {
    hide *;
    OpensOne(Market);
    SameMarket(AllowPartial, None);
    Asked([Market]);
    HalfFills(Opens([Market]), OrdersOf([Market]));
  }

  lemma HalfFills(strategy: Strategy, orders: seq<Order>)
    requires Answers(strategy, orders, None) && Answers(strategy, orders, Some("TRUE"))
    requires |orders| == 1 && forall o :: o in orders ==> OneShare(o) && o.orderType == Market
    ensures Drifts(strategy, Paper(AllowPartial, None))
  {
    assert Part(AllowPartial) == 0.5;
    hide *;
    BacktestFillsOne(strategy, orders);
    SharesFilled(AllowPartial, strategy, orders);
    UnequalSizes(strategy, Paper(AllowPartial, None));
  }

  lemma SizesFound(bt: seq<Fill>, btEquity: real, btCash: real, paper: seq<Fill>, equity: real, cash: real)
    requires |bt| == |paper| == 1 && bt[0].quantity == 1.0 && paper[0].quantity == 0.5
    ensures !Drift.NothingFound(bt, btEquity, btCash, paper, equity, cash)
  {
    assert Drift.Holds(Drift.QuantityAt(0), bt, btEquity, btCash, paper, equity, cash);
  }

  lemma UnequalSizes(strategy: Strategy, cfg: Config)
    requires var r := Backtest.After(BT, strategy, BARS, 2);
             && r.Ok? && |Drift.LoggedFills(r.value.log)| == 1 && Drift.LoggedFills(r.value.log)[0].quantity == 1.0
    requires var s := Run(cfg, strategy, Opened(cfg), Ticks(EVENTS)); |s.fills| == 1 && s.fills[0].quantity == 0.5
    ensures Drifts(strategy, cfg)
  {
    var r := Backtest.After(BT, strategy, BARS, 2);
    var s := Run(cfg, strategy, Opened(cfg), Ticks(EVENTS));
    hide Run, Opened, Backtest.After, Drift.LoggedFills, Equity, Drift.NothingFound;
    SizesFound(Drift.LoggedFills(r.value.log), Equity(r.value.book), r.value.book.cash, s.fills, Equity(s.book.book),
               s.book.book.cash);
  }

  // ---- a remainder that meets an unaffordable open

  const JUMP := EventAt("c", 2, 1000000.0)

  // Half of the one share is bought; the rest is due at the event numbered 2.
  ghost predicate Halved(s: Session) {
    && s.halt == None && |s.intents| == 1 && s.intents[0].status == PartiallyFilled
    && s.intents[0].filled == 0.5 && s.intents[0].scheduled == Some(2) && OneShare(s.intents[0].order)
    && s.book.book.cash <= 1000.0 && Quantity(s.book.book, "X") == 0.5 && |s.fills| == 1
  }

  // Everything the one waiting share needs.
  ghost predicate Ready(s: Session) {
    && Life(Paper(AllowPartial, None), s) && Money(Paper(AllowPartial, None), s) && s.halt == None
    && |s.intents| == 1 && Waiting(s.intents[0]) && s.fills == []
    && s.book.book.cash == 1000.0 && Quantity(s.book.book, "X") == 0.0
  }

  lemma HalfPaid(s: Session, e: Event)
    requires Ready(s) && e == EVENTS[1]
    ensures var t := ExecuteOne(Paper(AllowPartial, None), s, e, 0);
            && t.halt == None && |t.fills| == 1 && t.fills[0].quantity == 0.5
            && t.book.book.cash <= 1000.0 && Quantity(t.book.book, "X") == 0.5
  {
    WaitingDue(AllowPartial, s.intents[0]);
    HalfIsPart();
    assert e.bar.open == 10.0 && e.bar.symbol == "X";
    hide Life, Money, Paper, Quantity, Due, Part, ExecuteOne, NextQuantity, Waiting;
    BuyFilled(AllowPartial, s, e, 0);
  }

  lemma HalfTaken(s: Session, e: Event)
    requires Ready(s) && e == EVENTS[1]
    ensures var t := ExecuteOne(Paper(AllowPartial, None), s, e, 0);
            Halved(t) && t.feed == s.feed && t.shown == s.shown && t.started == s.started && t.stopped == s.stopped
  {
    hide Life, Money, Paper, Quantity, ExecuteOne, Waiting, AttemptAt, Halved;
    HalfPaid(s, e);
    HalfAttempted(s, e);
    ExecuteOneShape(Paper(AllowPartial, None), s, e, 0);
    OneKeepsRunning(Paper(AllowPartial, None), s, e, 0);
    HalfSettled(s, ExecuteOne(Paper(AllowPartial, None), s, e, 0));
  }

  lemma HalfAttempted(s: Session, e: Event)
    requires Ready(s)
    requires var t := ExecuteOne(Paper(AllowPartial, None), s, e, 0);
             t.halt == None && |t.fills| == 1 && t.fills[0].quantity == 0.5
    ensures var t := ExecuteOne(Paper(AllowPartial, None), s, e, 0);
            && t.intents[0].status == PartiallyFilled && t.intents[0].filled == 0.5
            && t.intents[0].scheduled == Some(e.seqNo + 1) && t.intents[0].order == s.intents[0].order
  {
    var cfg := Paper(AllowPartial, None);
    ConfigFits(AllowPartial, None);
    assert Open(s.intents[0]);
    hide Life, Money, ExecuteOne, AttemptAt, Paper, Fit, ValidConfig, Quantity;
    AttemptAtShape(cfg, s, e, 0);
    FilledOne(cfg, s, e, 0);
  }

  lemma OneKeepsRunning(cfg: Config, s: Session, e: Event, k: nat)
    requires k < |s.intents|
    ensures ExecuteOne(cfg, s, e, k).started == s.started && ExecuteOne(cfg, s, e, k).stopped == s.stopped
  {
    hide AttemptAt, Applied, CannotApply, Reschedule;
  }

  // A session that has one fill more has taken the attempt's fill.
  lemma FilledOne(cfg: Config, s: Session, e: Event, k: nat)
    requires k < |s.intents| && s.halt == None && ExecuteOne(cfg, s, e, k).halt == None
    requires |ExecuteOne(cfg, s, e, k).fills| > |s.fills|
    ensures var a := AttemptAt(cfg, s, e, k);
            && a.outcome.FilledWith? && ExecuteOne(cfg, s, e, k).fills[|s.fills|] == a.outcome.fill
            && ExecuteOne(cfg, s, e, k).intents == s.intents[k := Reschedule(a.intent, e)]
  {
    hide AttemptAt, Applied, CannotApply, Reschedule;
  }

  lemma HalfIsPart()
    ensures Part(AllowPartial) == 0.5 && EVENTS[1].seqNo == 1
  {
  }

  lemma HalfSettled(s: Session, t: Session)
    requires |s.intents| == |t.intents| == 1 && Waiting(s.intents[0]) && t.halt == None
    requires t.intents[0].status == PartiallyFilled && t.intents[0].filled == 0.5
    requires t.intents[0].scheduled == Some(EVENTS[1].seqNo + 1) && t.intents[0].order == s.intents[0].order
    requires t.book.book.cash <= 1000.0 && Quantity(t.book.book, "X") == 0.5 && |t.fills| == 1
    ensures Halved(t)
  {
    hide Quantity;
  }

  lemma HalfWalked(s: Session)
    requires Payable(AllowPartial, s, [0]) && |s.intents| == 1 && s.fills == []
    requires s.book.book.cash == 1000.0 && Quantity(s.book.book, "X") == 0.0
    ensures Names(s, [0]) && Names(s, [])
    ensures var (t, still) := ExecuteQueue(Paper(AllowPartial, None), s, EVENTS[1], [0], []);
            && Halved(t) && t.feed == s.feed && t.shown == s.shown && t.started == s.started && t.stopped == s.stopped
            && still == [0]
  {
    var cfg, e, todo := Paper(AllowPartial, None), EVENTS[1], [0];
    assert todo[1..] == [] && [] + [todo[0]] == todo && s.halt == None;
    WaitingDue(AllowPartial, s.intents[todo[0]]);
    PayableFirst(AllowPartial, s, todo);
    HalfTaken(s, e);
    QueueStep(cfg, s, e, todo, []);
    var t := ExecuteOne(cfg, s, e, 0);
    assert ExecuteQueue(cfg, t, e, [], todo) == (t, todo);
    hide ExecuteOne, ExecuteQueue, Payable, Due, Paper;
  }

  // The second event, at whose close nothing is ordered.
  lemma QuietClose(cfg: Config, strategy: Strategy, s: Session, e: Event)
    requires Running(s) && Issues(cfg.feed, s.feed, e) == [] && Names(s, s.pending) && |s.shown| == 1
    requires forall cs: seq<Context> :: |cs| > 1 ==> strategy(cs) == Decision(BUY, [])
    requires ExecuteQueue(cfg, Admit(cfg, s, e), e, s.pending, []).0.halt == None
    requires ExecuteQueue(cfg, Admit(cfg, s, e), e, s.pending, []).0.shown == s.shown
    requires ExecuteQueue(cfg, Admit(cfg, s, e), e, s.pending, []).0.started
    requires !ExecuteQueue(cfg, Admit(cfg, s, e), e, s.pending, []).0.stopped
    ensures var (q, still) := ExecuteQueue(cfg, Admit(cfg, s, e), e, s.pending, []);
            var t := ProcessEvent(cfg, strategy, s, e);
            && t.intents == q.intents && t.pending == still && t.fills == q.fills && t.halt == None
            && t.feed == q.feed && t.book.book.cash == q.book.book.cash
            && t.book.book.positions == q.book.book.positions && Running(t)
  {
    hide Issues, ExecuteQueue;
    var s2 := ExecutePending(cfg, Admit(cfg, s, e), e);
    var s3 := Observed(s2, e);
    assert |s3.shown| == 2;
    assert SubmitAll(cfg, s3, e, BUY, []) == s3;
    hide SubmitAll, PointOf;
  }

  lemma JumpAdmitted()
    ensures Issues(Paper(AllowPartial, None).feed, Commit(Commit(NOTHING_SEEN, EVENTS[0]), EVENTS[1]), JUMP) == []
    ensures JUMP.seqNo == 2 && JUMP.bar.open == 1000000.0 && JUMP.bar.symbol == "X"
  {
    assert ValidEvent(JUMP);
    assert JUMP.id == "c" && EVENTS[1].id == "b" && EVENTS[0].id == "a" && "a" != "b" && "c" != "b" && "a" != "c";
  }

  // A quarter share at a million is not to be paid for with 1000.
  lemma QuarterValues()
    ensures Value(0.5, 0.5) == 0.25 && Value(0.25, 1000000.0) == 250000.0
  {
  }

  lemma QuarterTooDear(exec: ExecConfig, i: Intent, cash: real)
    requires exec.costs == EQUITY_DELIVERY && exec.bps == 0.0 && i.order.side == Buy && cash <= 1000.0
    ensures Obstacle(exec, i, 0.25, 1000000.0, cash, 0.5, false, false).Some?
  {
    hide Value, CostOf, Slip;
    QuarterValues();
    Delivered(Buy, 0.25, 1000000.0);
  }

  lemma QuarterNext(exec: ExecConfig, i: Intent)
    requires exec.policy == AllowPartial && exec.ratio == 0.5 && i.order.quantity == 1.0 && i.filled == 0.5
    ensures NextQuantity(exec, i) == 0.25
  {
    hide Value;
    QuarterValues();
  }

  lemma ThrowsOnQuarter(exec: ExecConfig, v: Venue, i: Intent, at: int, cash: real)
    requires exec == Paper(AllowPartial, None).exec && WellFormed(exec, i) && VenueOk(v)
    requires i.status == PartiallyFilled && OneShare(i.order) && i.filled == 0.5 && cash <= 1000.0
    ensures ExecuteAtOpen(exec, v, i, at, 1000000.0, cash, 0.5, false, false) ==
            Attempt(v, i, Threw(IllegalTransition))
  {
    QuarterTooDear(exec, i, cash);
    QuarterNext(exec, i);
    assert exec.ratio == 0.5;
    hide Obstacle, ExecuteAtOpen, WellFormed, VenueOk, ProposedFill, NextQuantity, Paper, ValidFill;
    Attempted(exec, v, i, at, 1000000.0, cash, 0.5, false);
  }

  lemma HaltsOnQuarter(s: Session)
    requires Halved(s) && Life(Paper(AllowPartial, None), s)
    ensures ExecuteOne(Paper(AllowPartial, None), s, JUMP, 0).halt == Some(Exception(IllegalTransition))
    ensures ExecuteOne(Paper(AllowPartial, None), s, JUMP, 0).fills == s.fills
  {
    var cfg := Paper(AllowPartial, None);
    IntentWellFormed(cfg, s, 0);
    JumpAdmitted();
    ThrowsOnQuarter(cfg.exec, s.venue, s.intents[0], JUMP.bar.timestamp, s.book.book.cash);
    ExecuteOneShape(cfg, s, JUMP, 0);
    assert !Closed(cfg, JUMP) by {
      assert cfg.feed.calendar == None;
    }
    hide ExecuteOne, ExecuteAtOpen, WellFormed, IntentsOk, NotesOk, SumsOk, OnceOk, Quantity, OneShare, Paper;
  }

  lemma RunOfThree(cfg: Config, strategy: Strategy)
    requires Names(Opened(cfg), Opened(cfg).pending)
    ensures Run(cfg, strategy, Opened(cfg), Ticks(EVENTS + [JUMP])) ==
            ProcessEvent(cfg, strategy, Run(cfg, strategy, Opened(cfg), Ticks(EVENTS)), JUMP)
  {
    hide ProcessEvent, Run;
    assert (EVENTS + [JUMP])[..2] == EVENTS && (EVENTS + [JUMP])[..3] == EVENTS + [JUMP];
    TicksAppend(EVENTS + [JUMP], 2);
    RunSnoc(cfg, strategy, Opened(cfg), Ticks(EVENTS), Tick(JUMP));
  }

  lemma HalvedFrame(q: Session, t: Session)
    requires Halved(q) && t.intents == q.intents && t.fills == q.fills && t.halt == None
    requires t.book.book.cash == q.book.book.cash && t.book.book.positions == q.book.book.positions
    ensures Halved(t)
  {
  }

  ghost predicate AwaitsJump(s: Session) {
    && Running(s) && Halved(s) && s.pending == [0]
    && s.feed == Commit(Commit(NOTHING_SEEN, EVENTS[0]), EVENTS[1])
    && Alive(Paper(AllowPartial, None), s)
  }

  // The first two events: half of the share is bought.
  lemma HalfBought(strategy: Strategy, orders: seq<Order>)
    requires Answers(strategy, orders, Some("TRUE"))
    requires |orders| == 1 && forall o :: o in orders ==> OneShare(o) && o.orderType == Market
    ensures var cfg := Paper(AllowPartial, None);
            AwaitsJump(Run(cfg, strategy, Opened(cfg), Ticks(EVENTS)))
  {
    var cfg := Paper(AllowPartial, None);
    FirstKeeps(AllowPartial, strategy);
    MarketsTaken(AllowPartial, strategy, orders);
    RunOfTwo(cfg, strategy);
    var s := ProcessEvent(cfg, strategy, Opened(cfg), EVENTS[0]);
    assert forall cs: seq<Context> :: |cs| > 1 ==> strategy(cs) == Decision(BUY, []);
    hide ProcessEvent, Run, Opened, Alive, Money, Paper, Answers, Waiting, Commit;
    HalfBoughtNext(strategy, s);
  }

  lemma HalfBoughtNext(strategy: Strategy, s: Session)
    requires BetweenEvents(s, 1) && Alive(Paper(AllowPartial, None), s) && Money(Paper(AllowPartial, None), s)
    requires forall cs: seq<Context> :: |cs| > 1 ==> strategy(cs) == Decision(BUY, [])
    ensures Names(s, s.pending) && AwaitsJump(ProcessEvent(Paper(AllowPartial, None), strategy, s, EVENTS[1]))
  {
    var cfg, e := Paper(AllowPartial, None), EVENTS[1];
    HalfQueued(s);
    ConfigFits(AllowPartial, None);
    assert ValidConfig(cfg) && |s.shown| == 1 && Running(s);
    hide *;
    QuietClose(cfg, strategy, s, e);
    EventLife(cfg, strategy, s, e);
    var q := ExecuteQueue(cfg, Admit(cfg, s, e), e, s.pending, []);
    HalvedFrame(q.0, ProcessEvent(cfg, strategy, s, e));
    JumpAwaited(ProcessEvent(cfg, strategy, s, e));
  }

  lemma JumpAwaited(t: Session)
    requires Running(t) && Halved(t) && t.pending == [0] && Alive(Paper(AllowPartial, None), t)
    requires t.feed == Commit(Commit(NOTHING_SEEN, EVENTS[0]), EVENTS[1])
    ensures AwaitsJump(t)
  {
    hide Alive, Halved, Commit, Paper;
  }

  // The queue walk of the second event.
  lemma HalfQueued(s: Session)
    requires BetweenEvents(s, 1) && Alive(Paper(AllowPartial, None), s) && Money(Paper(AllowPartial, None), s)
    ensures var cfg, e := Paper(AllowPartial, None), EVENTS[1];
            && Issues(cfg.feed, s.feed, e) == [] && Names(s, s.pending)
            && Names(Admit(cfg, s, e), Admit(cfg, s, e).pending)
            && Names(Admit(cfg, s, e), [])
            && var (q, still) := ExecuteQueue(cfg, Admit(cfg, s, e), e, s.pending, []);
               && Halved(q) && still == [0] && q.halt == None && q.shown == s.shown && q.started && !q.stopped
               && q.feed == Commit(Commit(NOTHING_SEEN, EVENTS[0]), e)
  {
    var cfg, e := Paper(AllowPartial, None), EVENTS[1];
    AdmittedPayable(AllowPartial, s, 1);
    AdmittedFields(cfg, s, e);
    assert s.pending == [0];
    hide Alive, Money, Paper, Waiting, Payable, Admit, Issues, ExecuteQueue, Commit;
    HalfWalked(Admit(cfg, s, e));
  }

  lemma AdmittedFields(cfg: Config, s: Session, e: Event)
    requires Issues(cfg.feed, s.feed, e) == []
    ensures Admit(cfg, s, e) == s.(feed := Commit(s.feed, e))
    ensures s.book.book.positions == map[] ==> Quantity(Admit(cfg, s, e).book.book, "X") == 0.0
  {
  }

  lemma JumpHalts(strategy: Strategy, s: Session)
    requires AwaitsJump(s)
    ensures var t := ProcessEvent(Paper(AllowPartial, None), strategy, s, JUMP);
            t.halt == Some(Exception(IllegalTransition)) && t.fills == s.fills
  {
    var cfg := Paper(AllowPartial, None);
    JumpAdmitted();
    AdmittedFields(cfg, s, JUMP);
    AdmitLife(cfg, s, JUMP);
    var s1 := Admit(cfg, s, JUMP);
    assert Life(cfg, s1) && Halved(s1) && Names(s1, [0]) && Names(s1, []) && Due(s1.intents[0], JUMP) && [0][0] == 0;
    hide Life, Quantity, Paper, Issues, Commit, ProcessEvent, ExecuteOne, Admit, Due, QueueOk, Alive;
    HaltsOnQuarter(s1);
    QueueStep(cfg, s1, JUMP, [0], []);
    FillsOfEvent(cfg, strategy, s, JUMP);
  }

  // A session in which a half-filled order meets an open it cannot pay for: the adapter may not reject what is
  // partially filled, so the run ends on an illegal transition.
  lemma PartialFillHalts()
    ensures var cfg := Paper(AllowPartial, None);
            var s := Run(cfg, Opens([Market]), Opened(cfg), Ticks(EVENTS + [JUMP]));
            && s.halt == Some(Exception(IllegalTransition))
            && |s.fills| == 1 && s.fills[0].quantity == 0.5
  {
    assert Part(AllowPartial) == 0.5;
    hide *;
    var cfg := Paper(AllowPartial, None);
    Asked([Market]);
    HalfBought(Opens([Market]), OrdersOf([Market]));
    SharesFilled(AllowPartial, Opens([Market]), OrdersOf([Market]));
    FirstKeeps(AllowPartial, Opens([Market]));
    RunOfThree(cfg, Opens([Market]));
    JumpHalts(Opens([Market]), Run(cfg, Opens([Market]), Opened(cfg), Ticks(EVENTS)));
  }
}
