// What holds over whole gateway runs: no intent is retried blindly, and the capital limits hold with a single
// tolerance however many orders are sent.

module GatewayRuns {
  import opened Trading
  import opened Sums
  import opened KillSwitches
  import opened LiveOrders
  import opened LiveRisk
  import opened Gateways
  import opened GatewayProofs
  import MockBroker
  import Risk

  // ---- no blind retry

  ghost predicate HasOpen(st: Store, intentId: string) {
    exists c :: OpenRecord(st, c) && st.byClient[c].intentId == intentId
  }

  // Records stay as they are, requests are only added, and none is added for an intent with an open record.
  ghost predicate Later(g: Gateway, g': Gateway) {
    && (forall c :: c in g.store.byClient ==> c in g'.store.byClient && g'.store.byClient[c] == g.store.byClient[c])
    && g.requests <= g'.requests
    && (forall j :: |g.requests| <= j < |g'.requests| ==> !HasOpen(g.store, g'.requests[j].intentId))
  }

  lemma OpenPersists(g: Gateway, g': Gateway, intentId: string)
    requires Later(g, g') && HasOpen(g.store, intentId)
    ensures HasOpen(g'.store, intentId)
  {
    var c :| OpenRecord(g.store, c) && g.store.byClient[c].intentId == intentId;
    assert OpenRecord(g'.store, c);
  }

  lemma LaterTransitive(g: Gateway, g1: Gateway, g2: Gateway)
    requires Later(g, g1) && Later(g1, g2)
    ensures Later(g, g2)
  {
    forall j | |g.requests| <= j < |g2.requests|
      ensures !HasOpen(g.store, g2.requests[j].intentId)
    {
      var i := g2.requests[j].intentId;
      if j < |g1.requests| {
        assert g2.requests[j] == g1.requests[j];
      }
      if HasOpen(g.store, i) {
        OpenPersists(g, g1, i);
      }
    }
  }

  lemma LaterByOne(g: Gateway, g': Gateway, q: MockBroker.Request, r: Record)
    requires g'.store == Put(g.store, r) && r.clientId !in g.store.byClient && g'.requests == g.requests + [q]
    requires forall c :: c in g.store.byClient && g.store.byClient[c].intentId == q.intentId ==>
               TerminalState(g.store.byClient[c].state)
    ensures Later(g, g')
  {
  }

  lemma PlaceLater(cfg: Config, g: Gateway, a: Ask)
    requires Inv(cfg, g)
    ensures Later(g, Submit(cfg, g, a).0)
  {
    if g.started && Gate(cfg, g, a) == None {
      RequestIsNew(cfg, g, a);
      SentFacts(cfg, g, a);
      SentShape(cfg, g, a);
      var q := RequestFor(cfg, g, a);
      var r := FinalRecord(cfg, g, a, MockBroker.Submit(g.broker, q).1);
      var g' := Submit(cfg, g, a).0;
      assert q.intentId == a.intentId;
      RequestsAppended(cfg, g, g', q, r);
      hide *;
      LaterByOne(g, g', q, r);
    } else {
      hide Gate, Inv;
    }
  }

  lemma RequestsAppended(cfg: Config, g: Gateway, g': Gateway, q: MockBroker.Request, r: Record)
    requires Extended(cfg, g, g', q, r)
    ensures g'.requests == g.requests + [q]
  {
    hide ClientOrderId, Put;
  }

  lemma {:induction false} RunLater(cfg: Config, g: Gateway, cs: seq<Command>)
    requires Inv(cfg, g) && forall i :: 0 <= i < |cs| ==> ValidCommand(cs[i])
    ensures Later(g, Run(cfg, g, cs))
    decreases |cs|
  {
    if cs != [] {
      var g1 := Obey(cfg, g, cs[0]);
      StepLater(cfg, g, cs[0]);
      ObeyKeeps(cfg, g, cs[0]);
      hide Inv, Obey, Later;
      RunLater(cfg, g1, cs[1..]);
      LaterTransitive(g, g1, Run(cfg, g1, cs[1..]));
    } else {
      hide Inv;
    }
  }

  lemma Untouched(g: Gateway, g': Gateway)
    requires g'.store == g.store && g'.requests == g.requests
    ensures Later(g, g')
  {
  }

  lemma StepLater(cfg: Config, g: Gateway, c: Command)
    requires Inv(cfg, g)
    ensures Later(g, Obey(cfg, g, c))
  {
    if c.Place? {
      PlaceLater(cfg, g, c.ask);
      hide Inv, Submit, Later;
    } else {
      var g' := Obey(cfg, g, c);
      hide Inv, Agrees, Activate, Reset, Later;
      Untouched(g, g');
    }
  }

  // At any point of any run each intent has at most one open record; once it has one (UNKNOWN, part-filled or left
  // SUBMITTED by an exception) the venue is never asked for that intent again; and no two requests share an id.
  lemma NoBlindRetry(cfg: Config, behavior: MockBroker.Behavior, before: seq<Command>, after: seq<Command>)
    requires forall i :: 0 <= i < |before| ==> ValidCommand(before[i])
    requires forall i :: 0 <= i < |after| ==> ValidCommand(after[i])
    ensures var g := Run(cfg, New(cfg, behavior), before);
            var g' := Run(cfg, g, after);
            && g.requests <= g'.requests && OneOpen(g'.store) && Indexed(g'.store)
            && (forall j, l :: 0 <= j < l < |g'.requests| ==> g'.requests[j].clientId != g'.requests[l].clientId)
            && forall j :: |g.requests| <= j < |g'.requests| ==> !HasOpen(g.store, g'.requests[j].intentId)
  {
    RunKeeps(cfg, New(cfg, behavior), before);
    var g := Run(cfg, New(cfg, behavior), before);
    RunKeeps(cfg, g, after);
    RunLater(cfg, g, after);
    hide Run, New, HasOpen, SameBooks, MirrorOk, RecordOk, OneOpen, Indexed;
  }

  // Exactly what the store lets through in a reachable state: every record of the intent is REJECTED or FILLED. A
  // filled intent may be sent again; only UNKNOWN, part-filled and stuck ones are protected.
  lemma RetryAllowedIff(cfg: Config, g: Gateway, intentId: string)
    requires Inv(cfg, g)
    ensures CanRetry(g.store, intentId) == None <==>
            forall c :: c in g.store.byClient && g.store.byClient[c].intentId == intentId ==>
              g.store.byClient[c].state in {REJECTED, FILLED}
    ensures CanRetry(g.store, intentId) == None <==> !HasOpen(g.store, intentId)
  {
    var ids := IdsOf(g.store, intentId);
    RetryOnlyAfterTerminal(g.store, ids);
    hide FirstBlock, ClientOrderId, SameBooks, MirrorOk, RequestsOk, OneOpen;
    forall c | c in g.store.byClient
      ensures c in IdsOf(g.store, g.store.byClient[c].intentId)
      ensures g.store.byClient[c].state in {UNKNOWN, SUBMITTED, REJECTED, FILLED, PARTIALLY_FILLED}
    {
      assert RecordOk(cfg, g, c);
    }
    assert forall c :: c in ids ==> c in g.store.byClient && g.store.byClient[c].intentId == intentId;
  }

  // ---- a filled intent is not protected

  // The three levels a caller chooses, and what they leave of the platform's ceiling.
  const OWN := CapitalLimits(100.0, 100.0, 100.0, None, None, None, None)
  const SMALL := Config("s", 1000.0, CapitalLimits(100.0, 100.0, 100.0, PLATFORM.dailyLoss, PLATFORM.turnover,
                                                   PLATFORM.orderCount, PLATFORM.allocation))
  const ONE_SHARE := Ask("i", Order(Uuid(0), 0, "X", Buy, 1.0, Market), 10.0, false, false)

  // The gate when the risk check and the store have nothing to object.
  lemma GateOpens(g: Gateway, held: real)
    requires g.blocked == None && !g.kill.triggered && 0.0 <= held <= 5.0 && g.cash >= 900.0
    requires MockBroker.Get(g.positions, "X") == held && Sum(Exposures(g.positions, 10.0)) == held * 10.0
    requires CanRetry(g.store, "i") == None && g.cash == 1000.0 - held * 10.0
    requires g.load.orderCount < 100 && g.load.turnover == held * 10.0 && g.capitalUsed == held * 10.0
    ensures Gate(SMALL, g, ONE_SHARE) == None
  {
    assert !MockBroker.Fractional(1.0) by {
      assert 1.0.Floor == 1;
    }
    assert RiskVerdict(SMALL, g, ONE_SHARE) == None by {
      hide Sum, Exposures;
    }
    hide RiskVerdict, CanRetry, MockBroker.Fractional;
  }

  lemma VenueFills(m: MockBroker.Mock, q: MockBroker.Request)
    requires m.connected && m.behavior == MockBroker.FillAll && m.cash >= 900.0
             && MockBroker.Get(m.positions, "X") >= 0.0
    requires q.symbol == "X" && q.side == Buy && q.quantity == 1.0 && q.refPrice == 10.0
    ensures var (m', out) := MockBroker.Submit(m, q);
            && out.Responded? && out.response.state == FILLED && out.response.filled == 1.0
            && out.response.avgPrice == Some(10.0)
            && m'.connected && m'.behavior == MockBroker.FillAll && m'.cash == m.cash - 10.0
            && m'.positions == m.positions["X" := MockBroker.Get(m.positions, "X") + 1.0]
  {
    assert !MockBroker.Fractional(1.0) by {
      assert 1.0.Floor == 1;
    }
    assert Value(1.0, 10.0) == 10.0;
    hide MockBroker.Fractional, Value, ClientOrderId;
  }

  // Everything the second attempt needs to know about the first.
  ghost predicate ReadyForOne(g: Gateway, held: real) {
    && Inv(SMALL, g) && g.started && !g.kill.triggered && g.cash == 1000.0 - held * 10.0
    && g.positions == (if held == 0.0 then map[] else map["X" := held])
    && g.load.orderCount as real == held && g.load.turnover == held * 10.0 && g.capitalUsed == held * 10.0
    && g.broker.connected && g.broker.behavior == MockBroker.FillAll
    && CanRetry(g.store, "i") == None
  }

  lemma OneMoved(g: Gateway, g': Gateway, out: MockBroker.Outcome)
    requires Moved(g, g', ONE_SHARE, out) && out.Responded? && out.response.filled == 1.0
    requires out.response.avgPrice == Some(10.0)
    ensures g'.positions == g.positions["X" := MockBroker.Get(g.positions, "X") + 1.0] && g'.cash == g.cash - 10.0
    ensures g'.kill == g.kill && g'.started == g.started
    ensures g'.load == Load(g.load.orderCount + 1, g.load.turnover + 10.0) && g'.capitalUsed == g.capitalUsed + 10.0
  {
    assert Value(1.0, 10.0) == 10.0;
    hide Value;
  }

  lemma OneShareGate(g: Gateway, held: real)
    requires ReadyForOne(g, held) && (held == 0.0 || held == 1.0)
    ensures Gate(SMALL, g, ONE_SHARE) == None
  {
    var e := Exposures(g.positions, 10.0);
    if held == 0.0 {
      assert e == map[];
    } else {
      assert Value(1.0, 10.0) == 10.0;
      assert e == map["X" := 10.0];
      SumSplit(e, "X");
      assert e - {"X"} == map[];
    }
    hide Inv;
    GateOpens(g, held);
  }

  ghost predicate AllFilled(st: Store) {
    forall c :: c in st.byClient ==> st.byClient[c].state == FILLED
  }

  lemma OneShareAnswered(g: Gateway, held: real)
    requires ReadyForOne(g, held) && (held == 0.0 || held == 1.0)
    ensures var q := RequestFor(SMALL, g, ONE_SHARE);
            var (m', out) := MockBroker.Submit(g.broker, q);
            && out.Responded? && out.response.state == FILLED && out.response.filled == 1.0
            && out.response.avgPrice == Some(10.0) && m'.connected && m'.behavior == MockBroker.FillAll
            && q.intentId == "i"
  {
    assert MockBroker.Get(g.broker.positions, "X") == MockBroker.Get(g.positions, "X");
    assert g.broker.cash == g.cash;
    hide Inv;
    VenueFills(g.broker, RequestFor(SMALL, g, ONE_SHARE));
    hide MockBroker.Submit, ClientOrderId;
  }

  lemma OneShareRecorded(g: Gateway, held: real)
    requires ReadyForOne(g, held) && (held == 0.0 || held == 1.0) && AllFilled(g.store)
    ensures var g' := Submit(SMALL, g, ONE_SHARE).0;
            && g'.requests == g.requests + [RequestFor(SMALL, g, ONE_SHARE)] && AllFilled(g'.store)
            && Moved(g, g', ONE_SHARE, MockBroker.Submit(g.broker, RequestFor(SMALL, g, ONE_SHARE)).1)
            && g'.broker == MockBroker.Submit(g.broker, RequestFor(SMALL, g, ONE_SHARE)).0
  {
    OneShareGate(g, held);
    OneShareAnswered(g, held);
    hide Gate, MockBroker.Submit, Moved, ClientOrderId, StoreOk, MirrorOk, CanRetry;
    SentShape(SMALL, g, ONE_SHARE);
    hide Inv, Submit;
  }

  lemma OneShareHeld(positions: map<string, real>, held: real)
    requires positions == (if held == 0.0 then map[] else map["X" := held])
    ensures positions["X" := MockBroker.Get(positions, "X") + 1.0] == map["X" := held + 1.0]
  {
  }

  lemma RetryWhenFilled(g: Gateway, intentId: string)
    requires Inv(SMALL, g) && AllFilled(g.store)
    ensures CanRetry(g.store, intentId) == None
  {
    RetryAllowedIff(SMALL, g, intentId);
    hide Inv, CanRetry, HasOpen;
  }

  lemma ReadyAgain(g: Gateway, g': Gateway, held: real, out: MockBroker.Outcome)
    requires ReadyForOne(g, held) && Moved(g, g', ONE_SHARE, out) && out.Responded? && out.response.filled == 1.0
    requires out.response.avgPrice == Some(10.0) && Inv(SMALL, g') && CanRetry(g'.store, "i") == None && held >= 0.0
    requires g'.broker.connected && g'.broker.behavior == MockBroker.FillAll
    ensures ReadyForOne(g', held + 1.0)
  {
    OneMoved(g, g', out);
    OneShareHeld(g.positions, held);
    hide Moved, Inv, CanRetry, MockBroker.Get;
  }

  // Sending the order once more from such a state adds a filled record of the same intent.
  lemma OneShareSent(g: Gateway, held: real)
    requires ReadyForOne(g, held) && (held == 0.0 || held == 1.0) && AllFilled(g.store)
    ensures var g' := Submit(SMALL, g, ONE_SHARE).0;
            && ReadyForOne(g', held + 1.0) && AllFilled(g'.store)
            && g'.requests == g.requests + [RequestFor(SMALL, g, ONE_SHARE)]
  {
    var out := MockBroker.Submit(g.broker, RequestFor(SMALL, g, ONE_SHARE)).1;
    var g' := Submit(SMALL, g, ONE_SHARE).0;
    OneShareRecorded(g, held);
    OneShareAnswered(g, held);
    PlaceKeeps(SMALL, g, ONE_SHARE);
    hide *;
    RetryWhenFilled(g', "i");
    ReadyAgain(g, g', held, out);
  }

  lemma StartedReady()
    ensures var g := Obey(SMALL, New(SMALL, MockBroker.FillAll), Start(true));
            ReadyForOne(g, 0.0) && AllFilled(g.store) && g.requests == []
  {
    var g0 := New(SMALL, MockBroker.FillAll);
    assert Inv(SMALL, g0);
    ObeyKeeps(SMALL, g0, Start(true));
    hide Inv;
  }

  // One intent, two fills, within limits that a gateway does hold: the store lets a filled intent be sent again, under
  // a fresh id.
  lemma FilledIntentSentTwice()
    ensures IsMeet(SMALL.effective, [OWN, OWN, OWN, PLATFORM])
    ensures var g := Run(SMALL, New(SMALL, MockBroker.FillAll), [Start(true), Place(ONE_SHARE), Place(ONE_SHARE)]);
            && |g.requests| == 2 && g.requests[0].intentId == g.requests[1].intentId
            && g.requests[0].clientId != g.requests[1].clientId && g.positions == map["X" := 2.0]
  {
    SmallIsMeet();
    var g0 := New(SMALL, MockBroker.FillAll);
    var g1 := Obey(SMALL, g0, Start(true));
    var g2 := Submit(SMALL, g1, ONE_SHARE).0;
    StartedReady();
    RunThree(SMALL, g0, Start(true), Place(ONE_SHARE), Place(ONE_SHARE));
    hide Submit, New, ReadyForOne, AllFilled, Run, Inv, ClientOrderId;
    OneShareSent(g1, 0.0);
    OneShareSent(g2, 1.0);
    TwiceDistinct(Submit(SMALL, g2, ONE_SHARE).0);
    hide Obey;
  }

  lemma SmallIsMeet()
    ensures IsMeet(SMALL.effective, [OWN, OWN, OWN, PLATFORM])
  {
    var levels := [OWN, OWN, OWN, PLATFORM];
    assert levels[0] == OWN && levels[3] == PLATFORM;
  }

  lemma RunThree(cfg: Config, g: Gateway, a: Command, b: Command, c: Command)
    ensures Run(cfg, g, [a, b, c]) == Obey(cfg, Obey(cfg, Obey(cfg, g, a), b), c)
  {
    hide Obey;
    var cs := [a, b, c];
    assert cs[1..] == [b, c] && cs[1..][1..] == [c] && cs[1..][1..][1..] == [];
    var g2 := Obey(cfg, Obey(cfg, g, a), b);
    assert Run(cfg, g2, [c]) == Obey(cfg, g2, c);
  }

  lemma TwiceDistinct(g: Gateway)
    requires ReadyForOne(g, 2.0) && |g.requests| == 2
    ensures g.requests[0].clientId != g.requests[1].clientId && g.positions == map["X" := 2.0]
  {
  }

  // ---- limits

  function Max(a: real, b: real): real { if a >= b then a else b }

  predicate PricedCommand(c: Command) {
    ValidCommand(c) && (c.Place? ==> c.ask.refPrice > 0.0)
  }

  // Count, turnover and capital within their caps, cash and holdings not below zero, each up to one tolerance; a cap
  // below zero leaves the starting value.
  ghost predicate Bounded(cfg: Config, g: Gateway) {
    var eff := cfg.effective;
    && 0.0 <= g.broker.ratio <= 1.0
    && (eff.orderCount.Some? ==> g.load.orderCount == 0 || g.load.orderCount <= eff.orderCount.value)
    && (eff.turnover.Some? ==> g.load.turnover <= Max(0.0, eff.turnover.value + EPS9))
    && (eff.allocation.Some? ==> g.capitalUsed <= Max(0.0, eff.allocation.value + EPS9))
    && (if cfg.initialCash <= -EPS9 then cfg.initialCash else -EPS9) <= g.cash
    && forall s :: MockBroker.Get(g.positions, s) >= -EPS9
  }

  // What an order that passed the risk check leaves room for.
  predicate HasRoom(cfg: Config, g: Gateway, a: Ask) {
    var eff := cfg.effective;
    var notional := Value(a.order.quantity, a.refPrice);
    && (eff.orderCount.Some? ==> g.load.orderCount < eff.orderCount.value)
    && (eff.turnover.Some? ==> g.load.turnover + notional <= eff.turnover.value + EPS9)
    && (eff.allocation.Some? && a.order.side == Buy ==> g.capitalUsed + notional <= eff.allocation.value + EPS9)
  }

  lemma GateLeavesRoom(cfg: Config, g: Gateway, a: Ask)
    requires Gate(cfg, g, a) == None
    ensures HasRoom(cfg, g, a)
  {
    GateAllowsRetry(cfg, g, a);
    hide Gate, Value, Risk.PositionAfter, PositivePart;
  }

  lemma ValueMonotone(q: real, q': real, p: real)
    requires 0.0 <= q <= q' && 0.0 <= p
    ensures 0.0 <= Value(q, p) <= Value(q', p)
  {
    assert (q' - q) * p >= 0.0;
    assert q * p >= 0.0;
  }

  lemma MovedStaysBounded(cfg: Config, g: Gateway, g': Gateway, a: Ask, filled: real)
    requires Bounded(cfg, g) && HasRoom(cfg, g, a) && a.refPrice > 0.0 && 0.0 <= filled <= a.order.quantity
    requires g'.broker.ratio == g.broker.ratio
    requires Moved(g, g', a, MockBroker.Responded(MockBroker.Response(FILLED, None, None, filled, Some(a.refPrice))))
    requires if a.order.side == Buy then Value(filled, a.refPrice) <= g.cash + EPS9
             else filled <= MockBroker.Get(g.positions, a.order.symbol) + EPS9
    ensures Bounded(cfg, g')
  {
    ValueMonotone(filled, a.order.quantity, a.refPrice);
    hide Value;
    forall s
      ensures MockBroker.Get(g'.positions, s) >= -EPS9
    {
      assert MockBroker.Get(g.positions, s) >= -EPS9;
    }
  }

  // Only the filled quantity and the price of an answer move the books.
  lemma MovedByFill(g: Gateway, g': Gateway, a: Ask, out: MockBroker.Outcome)
    requires Moved(g, g', a, out)
    ensures out.Responded? && out.response.avgPrice.Some? ==>
              Moved(g, g', a, MockBroker.Responded(MockBroker.Response(FILLED, None, None, out.response.filled,
                                                                       out.response.avgPrice)))
    ensures !out.Responded? || out.response.filled <= 0.0 ==>
              g'.positions == g.positions && g'.cash == g.cash && g'.capitalUsed == g.capitalUsed && g'.load == g.load
  {
    hide FillInternally, Value;
  }

  lemma AnswerStaysBounded(cfg: Config, g: Gateway, g': Gateway, a: Ask, q: MockBroker.Request, out: MockBroker.Outcome)
    requires Bounded(cfg, g) && SameBooks(g) && HasRoom(cfg, g, a) && a.refPrice > 0.0
    requires AnsweredWell(g.broker, q, g'.broker, out) && Moved(g, g', a, out)
    requires q.symbol == a.order.symbol && q.side == a.order.side && q.refPrice == a.refPrice
    requires 0.0 <= MockBroker.FilledBy(g.broker, q) <= a.order.quantity
    ensures Bounded(cfg, g')
  {
    MovedByFill(g, g', a, out);
    RatioKept(g.broker, q, g'.broker, out);
    BoundedFrame(cfg, g, g');
    hide Value, Moved, MockBroker.FilledBy, FillInternally, SameElsewhere, HasRoom;
    if out.Responded? && out.response.filled > 0.0 {
      assert MockBroker.Get(g.positions, q.symbol) == MockBroker.Get(g.broker.positions, q.symbol);
      assert BrokerFilled(g.broker, g'.broker, q, out.response);
      assert out.response.avgPrice == Some(a.refPrice);
      MovedStaysBounded(cfg, g, g', a, out.response.filled);
    } else {
      assert SameLimits(g, g');
    }
  }

  predicate SameLimits(g: Gateway, g': Gateway) {
    && g'.positions == g.positions && g'.cash == g.cash && g'.capitalUsed == g.capitalUsed && g'.load == g.load
    && g'.broker.ratio == g.broker.ratio
  }

  lemma BoundedFrame(cfg: Config, g: Gateway, g': Gateway)
    requires Bounded(cfg, g)
    ensures SameLimits(g, g') ==> Bounded(cfg, g')
  {
  }

  lemma PlaceStaysBounded(cfg: Config, g: Gateway, a: Ask)
    requires Inv(cfg, g) && Bounded(cfg, g) && ValidAsk(a) && a.refPrice > 0.0
    ensures Bounded(cfg, Submit(cfg, g, a).0)
  {
    if g.started && Gate(cfg, g, a) == None {
      SentFacts(cfg, g, a);
      GateLeavesRoom(cfg, g, a);
      var q := RequestFor(cfg, g, a);
      var out := MockBroker.Submit(g.broker, q).1;
      var m := g.broker.(submits := g.broker.submits + 1);
      var g' := Submit(cfg, g, a).0;
      assert q.quantity == a.order.quantity && q.symbol == a.order.symbol && q.side == a.order.side;
      hide Gate, Submit, MockBroker.Submit, StoreOk, OneOpen, MirrorOk, RequestsOk, AnsweredWell, Moved, HasRoom, Value,
           ClientOrderId, MockBroker.FilledBy;
      FilledInRange(m, q);
      BooksFrame(g, g.(broker := m));
      MovedFrame(g, m, g', a, out);
      RoomFrame(cfg, g, g.(broker := m), a);
      AnswerStaysBounded(cfg, g.(broker := m), g', a, q, out);
    } else {
      hide Inv, Gate;
    }
  }

  lemma RoomFrame(cfg: Config, g: Gateway, g': Gateway, a: Ask)
    requires HasRoom(cfg, g, a) && g'.load == g.load && g'.capitalUsed == g.capitalUsed
    ensures HasRoom(cfg, g', a)
  {
    hide Value;
  }

  lemma StepStaysBounded(cfg: Config, g: Gateway, c: Command)
    requires Inv(cfg, g) && Bounded(cfg, g) && PricedCommand(c)
    ensures Bounded(cfg, Obey(cfg, g, c))
  {
    if c.Place? {
      PlaceStaysBounded(cfg, g, c.ask);
      hide Inv, Submit, Bounded;
    } else {
      var g' := Obey(cfg, g, c);
      hide Inv, Agrees, Activate, Reset;
    }
  }

  lemma {:induction false} RunStaysBounded(cfg: Config, g: Gateway, cs: seq<Command>)
    requires Inv(cfg, g) && Bounded(cfg, g) && forall i :: 0 <= i < |cs| ==> PricedCommand(cs[i])
    ensures Bounded(cfg, Run(cfg, g, cs))
    decreases |cs|
  {
    hide Inv, Obey, Bounded;
    if cs != [] {
      ObeyKeeps(cfg, g, cs[0]);
      StepStaysBounded(cfg, g, cs[0]);
      RunStaysBounded(cfg, Obey(cfg, g, cs[0]), cs[1..]);
    }
  }

  // However long the run: accepted orders within their cap; turnover and capital within theirs plus one tolerance;
  // cash and every position, at the gateway and at the venue, no further below zero than one tolerance.
  lemma LimitsHoldOverRuns(cfg: Config, behavior: MockBroker.Behavior, cs: seq<Command>)
    requires cfg.initialCash >= 0.0 && forall i :: 0 <= i < |cs| ==> PricedCommand(cs[i])
    ensures var g := Run(cfg, New(cfg, behavior), cs);
            && Bounded(cfg, g) && g.cash >= -EPS9 && g.broker.cash >= -EPS9
            && forall s :: MockBroker.Get(g.broker.positions, s) >= -EPS9
  {
    var g := Run(cfg, New(cfg, behavior), cs);
    RunStaysBounded(cfg, New(cfg, behavior), cs);
    NeverDiverge(cfg, behavior, cs);
    hide Run, Inv, Agrees;
    forall s
      ensures MockBroker.Get(g.broker.positions, s) >= -EPS9
    {
      assert MockBroker.Get(g.positions, s) == MockBroker.Get(g.broker.positions, s);
    }
  }
}
