// The gateway and the venue as a two-party protocol: they never diverge, no intent is retried blindly, recovery
// succeeds exactly when it should, and the capital limits hold, over every run and every choice of venue behaviour.

module GatewayProofs {
  import opened Trading
  import opened KillSwitches
  import opened LiveOrders
  import opened LiveRisk
  import opened LiveReconciliation
  import opened Gateways
  import MockBroker

  // ---- the venue's answer

  predicate SameElsewhere(m: MockBroker.Mock, m': MockBroker.Mock, id: string) {
    (forall c :: c in m.orders && c != id ==> c in m'.orders && m'.orders[c] == m.orders[c])
    && (forall c :: c in m'.orders && c != id ==> c in m.orders)
  }

  // What the venue's book and its view of the order become under a new id.
  predicate AnsweredWell(m: MockBroker.Mock, r: MockBroker.Request, m': MockBroker.Mock, out: MockBroker.Outcome) {
    && SameElsewhere(m, m', r.clientId)
    && m'.behavior == m.behavior && m'.ratio == m.ratio && m'.connected == m.connected
    && (out.Raised? ==> m'.orders == m.orders && m'.positions == m.positions && m'.cash == m.cash)
    && (out.Responded? ==>
          var resp := out.response;
          && MockBroker.StateAt(m', r.clientId) == resp.state && MockBroker.FilledAt(m', r.clientId) == resp.filled
          && resp.state in {UNKNOWN, REJECTED, FILLED, PARTIALLY_FILLED}
          && (if resp.state == UNKNOWN || resp.state == REJECTED then
                resp.filled == 0.0 && m'.positions == m.positions && m'.cash == m.cash
              else BrokerFilled(m, m', r, resp)))
  }

  lemma NotedAnswers(m: MockBroker.Mock, m1: MockBroker.Mock, r: MockBroker.Request, s: BrokerState, why: string)
    requires m1 == m.(seqNo := m1.seqNo) && (s == UNKNOWN || s == REJECTED)
    ensures AnsweredWell(m, r, MockBroker.Noted(m1, r, s), MockBroker.Refusal(s, why))
  {
    hide BrokerFilled;
  }

  // A venue that keeps no trace of the request.
  lemma SilentAnswers(m: MockBroker.Mock, m1: MockBroker.Mock, r: MockBroker.Request)
    requires m1 == m.(seqNo := m1.seqNo)
    ensures AnsweredWell(m, r, m1, MockBroker.Raised)
    ensures r.clientId !in m.orders ==> AnsweredWell(m, r, m1, MockBroker.Refusal(UNKNOWN, "broker_disconnected"))
  {
    hide BrokerFilled;
  }

  lemma BookedAnswers(m: MockBroker.Mock, m1: MockBroker.Mock, r: MockBroker.Request)
    requires m1 == m.(seqNo := m1.seqNo)
    requires var price, filled := MockBroker.PriceOf(r.refPrice), MockBroker.FilledBy(m, r);
             if r.side == Buy then Value(filled, price) <= m.cash + EPS9
             else filled <= MockBroker.Get(m.positions, r.symbol) + EPS9
    ensures var price, filled := MockBroker.PriceOf(r.refPrice), MockBroker.FilledBy(m, r);
            var m2 := MockBroker.Booked(m1, r, filled, price);
            && r.clientId in m2.orders
            && var o := m2.orders[r.clientId];
               AnsweredWell(m, r, m2,
                            MockBroker.Responded(MockBroker.Response(o.state, o.brokerOrderId, None, filled,
                                                                     Some(price))))
  {
    BookedShape(m1, r, MockBroker.FilledBy(m, r), MockBroker.PriceOf(r.refPrice));
    hide MockBroker.Booked, Value, MockBroker.PriceOf, MockBroker.FilledBy;
  }

  lemma TradeAnswers(m: MockBroker.Mock, r: MockBroker.Request)
    ensures var (m', out) := MockBroker.Trade(m, r); AnsweredWell(m, r, m', out)
  {
    var m1 := m.(seqNo := m.seqNo + 1);
    NotedAnswers(m, m1, r, REJECTED, "insufficient_cash");
    NotedAnswers(m, m1, r, REJECTED, "insufficient_position");
    SilentAnswers(m, m1, r);
    var price, filled := MockBroker.PriceOf(r.refPrice), MockBroker.FilledBy(m, r);
    hide MockBroker.Booked, Value, MockBroker.PriceOf, MockBroker.FilledBy, MockBroker.Noted, MockBroker.Refusal;
    hide AnsweredWell;
    if r.side == Buy {
      if Value(filled, price) <= m.cash + EPS9 {
        BookedAnswers(m, m1, r);
      }
    } else if filled <= MockBroker.Get(m.positions, r.symbol) + EPS9 {
      BookedAnswers(m, m1, r);
    }
  }

  // Whatever the venue does with a request under an id it has not seen; the submission count is its own affair.
  lemma BrokerAnswers(m: MockBroker.Mock, r: MockBroker.Request)
    requires r.clientId !in m.orders
    ensures var (m', out) := MockBroker.Submit(m, r); AnsweredWell(m.(submits := m.submits + 1), r, m', out)
  {
    var m1 := m.(submits := m.submits + 1);
    TradeAnswers(m1, r);
    NotedAnswers(m1, m1, r, UNKNOWN, "timeout_unknown");
    NotedAnswers(m1, m1, r, REJECTED, "mock_reject");
    SilentAnswers(m1, m1, r);
    hide MockBroker.Fractional, MockBroker.Trade, MockBroker.Noted, MockBroker.Refusal, AnsweredWell;
    var answer := MockBroker.Submit(m, r);
    if !m1.connected || m1.behavior == MockBroker.Disconnect {
      assert answer == (m1, MockBroker.Refusal(UNKNOWN, "broker_disconnected"));
    } else if MockBroker.Fractional(r.quantity) {
      assert answer == (m1, MockBroker.Raised);
    } else if m1.behavior == MockBroker.TimeOut {
      assert answer == (MockBroker.Noted(m1, r, UNKNOWN), MockBroker.Refusal(UNKNOWN, "timeout_unknown"));
    } else if m1.behavior == MockBroker.RejectAll {
      assert answer == (MockBroker.Noted(m1, r, REJECTED), MockBroker.Refusal(REJECTED, "mock_reject"));
    } else {
      assert answer == MockBroker.Trade(m1, r);
    }
  }

  lemma BookedShape(m: MockBroker.Mock, r: MockBroker.Request, filled: real, price: real)
    ensures var m' := MockBroker.Booked(m, r, filled, price);
            var prev := MockBroker.Get(m.positions, r.symbol);
            && r.clientId in m'.orders && SameElsewhere(m, m', r.clientId)
            && m'.behavior == m.behavior && m'.ratio == m.ratio && m'.connected == m.connected
            && m'.orders[r.clientId].filled == filled
            && (m'.orders[r.clientId].state == FILLED || m'.orders[r.clientId].state == PARTIALLY_FILLED)
            && (if r.side == Buy then
                  m'.positions == m.positions[r.symbol := prev + filled] && m'.cash == m.cash - Value(filled, price)
                else
                  m'.positions == m.positions[r.symbol := prev - filled] && m'.cash == m.cash + Value(filled, price))
  {
    hide ClientOrderId, Value;
  }

  // A fill at the venue.
  predicate BrokerFilled(m: MockBroker.Mock, m': MockBroker.Mock, r: MockBroker.Request, resp: MockBroker.Response) {
    var price := MockBroker.PriceOf(r.refPrice);
    var prev := MockBroker.Get(m.positions, r.symbol);
    && resp.avgPrice == Some(price) && resp.filled == MockBroker.FilledBy(m, r)
    && (if r.side == Buy then
          Value(resp.filled, price) <= m.cash + EPS9
          && m'.positions == m.positions[r.symbol := prev + resp.filled]
          && m'.cash == m.cash - Value(resp.filled, price)
        else
          resp.filled <= prev + EPS9
          && m'.positions == m.positions[r.symbol := prev - resp.filled]
          && m'.cash == m.cash + Value(resp.filled, price))
  }

  // ---- the invariant

  ghost predicate SameBooks(g: Gateway) {
    g.cash == g.broker.cash
    && forall s :: MockBroker.Get(g.positions, s) == MockBroker.Get(g.broker.positions, s)
  }

  predicate Unsettled(s: BrokerState) {
    s == UNKNOWN || s == SUBMITTED
  }

  // One record: its id is the id of its intent and epoch, it is indexed, and only an unsettled record sits at the
  // intent's current epoch.
  predicate RecordOk(cfg: Config, g: Gateway, c: string)
    requires c in g.store.byClient
  {
    var r := g.store.byClient[c];
    && r.clientId == c && c == ClientOrderId(cfg.session, r.intentId, r.epoch)
    && c in IdsOf(g.store, r.intentId)
    && r.state in {UNKNOWN, SUBMITTED, REJECTED, FILLED, PARTIALLY_FILLED}
    && (if Unsettled(r.state) then r.epoch == EpochOf(g, r.intentId) else r.epoch < EpochOf(g, r.intentId))
  }

  // The two maps index the same records, once each.
  ghost predicate Indexed(st: Store) {
    && (forall i, c :: i in st.byIntent && c in st.byIntent[i] ==> c in st.byClient && st.byClient[c].intentId == i)
    && (forall i :: i in st.byIntent ==> DistinctIds(st.byIntent[i]))
  }

  predicate DistinctIds(ids: seq<string>) {
    forall j, l :: 0 <= j < l < |ids| ==> ids[j] != ids[l]
  }

  ghost predicate StoreOk(cfg: Config, g: Gateway) {
    && (forall c :: c in g.store.byClient ==> RecordOk(cfg, g, c))
    && Indexed(g.store)
  }

  predicate OpenRecord(st: Store, c: string) {
    c in st.byClient && !TerminalState(st.byClient[c].state)
  }

  ghost predicate OneOpen(st: Store) {
    forall c, d :: OpenRecord(st, c) && OpenRecord(st, d) && st.byClient[c].intentId == st.byClient[d].intentId ==>
      c == d
  }

  // A record says what the venue says; one left behind by an exception is unknown to the venue.
  predicate Mirrored(g: Gateway, c: string)
    requires c in g.store.byClient
  {
    var r := g.store.byClient[c];
    && r.filled == MockBroker.FilledAt(g.broker, c) && (Unsettled(r.state) || r.state == REJECTED ==> r.filled == 0.0)
    && (r.state == MockBroker.StateAt(g.broker, c) || (r.state == SUBMITTED && c !in g.broker.orders))
  }

  ghost predicate MirrorOk(g: Gateway) {
    && (forall c :: c in g.store.byClient ==> Mirrored(g, c))
    && (forall c :: c in g.broker.orders ==> c in g.store.byClient)
  }

  // Every request was recorded first, under an id never used before, and every record was requested.
  ghost predicate RequestsOk(g: Gateway) {
    && (forall j :: 0 <= j < |g.requests| ==>
          g.requests[j].clientId in g.store.byClient
          && g.store.byClient[g.requests[j].clientId].intentId == g.requests[j].intentId)
    && (forall j, l :: 0 <= j < l < |g.requests| ==> g.requests[j].clientId != g.requests[l].clientId)
    && (forall c :: c in g.store.byClient ==> exists j :: 0 <= j < |g.requests| && g.requests[j].clientId == c)
  }

  ghost predicate Inv(cfg: Config, g: Gateway) {
    SameBooks(g) && StoreOk(cfg, g) && OneOpen(g.store) && MirrorOk(g) && RequestsOk(g) && 0.0 <= g.broker.ratio <= 1.0
    && g.blocked == None
  }

  // ---- a new submission

  // A submission that passes the gate carries an id no record has.
  lemma NewId(cfg: Config, g: Gateway, intentId: string)
    requires StoreOk(cfg, g) && CanRetry(g.store, intentId) == None
    ensures ClientOrderId(cfg.session, intentId, EpochOf(g, intentId)) !in g.store.byClient
    ensures forall c :: c in g.store.byClient && g.store.byClient[c].intentId == intentId ==>
              TerminalState(g.store.byClient[c].state)
  {
    RetryOnlyAfterTerminal(g.store, IdsOf(g.store, intentId));
    forall c | c in g.store.byClient && g.store.byClient[c].intentId == intentId
      ensures TerminalState(g.store.byClient[c].state)
    {
      assert RecordOk(cfg, g, c);
    }
    var id := ClientOrderId(cfg.session, intentId, EpochOf(g, intentId));
    if id in g.store.byClient {
      assert RecordOk(cfg, g, id);
      var r := g.store.byClient[id];
      ClientOrderIdsDistinct(cfg.session, intentId, EpochOf(g, intentId), r.intentId, r.epoch);
    }
  }

  lemma PutTwice(st: Store, a: Record, b: Record)
    requires a.clientId == b.clientId && a.intentId == b.intentId
    ensures Put(Put(st, a), b) == Put(st, b)
  {
    assert st.byClient[a.clientId := a][b.clientId := b] == st.byClient[b.clientId := b];
    var ids := IdsOf(Put(st, a), a.intentId);
    assert b.clientId in ids;
    assert st.byIntent[a.intentId := ids][b.intentId := ids] == st.byIntent[b.intentId := ids];
  }

  // The state after recording one new record r and, unless it stays unsettled, moving the intent's epoch past it.
  ghost predicate Extended(cfg: Config, g: Gateway, g': Gateway, q: MockBroker.Request, r: Record) {
    && r.clientId == q.clientId == ClientOrderId(cfg.session, r.intentId, r.epoch)
    && q.intentId == r.intentId && r.epoch == EpochOf(g, r.intentId)
    && g'.store == Put(g.store, r) && g'.requests == g.requests + [q]
    && g'.epochs == (if Unsettled(r.state) then g.epochs else g.epochs[r.intentId := r.epoch + 1])
    && r.state in {UNKNOWN, SUBMITTED, REJECTED, FILLED, PARTIALLY_FILLED}
  }

  lemma ExtendedStore(cfg: Config, g: Gateway, g': Gateway, q: MockBroker.Request, r: Record)
    requires StoreOk(cfg, g) && r.clientId !in g.store.byClient
    requires Extended(cfg, g, g', q, r)
    ensures StoreOk(cfg, g')
  {
    hide ClientOrderId;
    var st, st' := g.store, g'.store;
    forall c | c in st'.byClient
      ensures RecordOk(cfg, g', c)
    {
      if c != r.clientId {
        assert RecordOk(cfg, g, c);
      }
    }
    NotListed(st, r);
  }

  lemma NotListed(st: Store, r: Record)
    requires Indexed(st) && r.clientId !in st.byClient
    ensures Indexed(Put(st, r)) && r.clientId !in IdsOf(st, r.intentId)
  {
  }

  lemma ExtendedOneOpen(cfg: Config, g: Gateway, g': Gateway, q: MockBroker.Request, r: Record)
    requires OneOpen(g.store) && r.clientId !in g.store.byClient && Extended(cfg, g, g', q, r)
    requires forall c :: c in g.store.byClient && g.store.byClient[c].intentId == r.intentId ==>
               TerminalState(g.store.byClient[c].state)
    ensures OneOpen(g'.store)
  {
    hide ClientOrderId;
  }

  lemma ExtendedRequests(cfg: Config, g: Gateway, g': Gateway, q: MockBroker.Request, r: Record)
    requires RequestsOk(g) && r.clientId !in g.store.byClient && Extended(cfg, g, g', q, r)
    ensures RequestsOk(g')
  {
    hide ClientOrderId;
    var n := |g.requests|;
    forall c | c in g'.store.byClient
      ensures exists j :: 0 <= j < |g'.requests| && g'.requests[j].clientId == c
    {
      if c == r.clientId {
        assert g'.requests[n].clientId == c;
      } else {
        var j :| 0 <= j < |g.requests| && g.requests[j].clientId == c;
        assert g'.requests[j].clientId == c;
      }
    }
  }

  // ---- the books after a fill

  lemma BooksAfterFill(g: Gateway, m': MockBroker.Mock, q: MockBroker.Request, resp: MockBroker.Response, o: Order)
    requires SameBooks(g) && BrokerFilled(g.broker, m', q, resp) && o.symbol == q.symbol && o.side == q.side
    ensures SameBooks(FillInternally(g, o, resp.filled, resp.avgPrice.value).(broker := m'))
    ensures resp.filled == 0.0 ==> SameBooks(g.(broker := m'))
  {
    ZeroValue(resp.avgPrice.value);
    hide Value;
    forall s
      ensures MockBroker.Get(FillInternally(g, o, resp.filled, resp.avgPrice.value).positions, s)
              == MockBroker.Get(m'.positions, s)
      ensures resp.filled == 0.0 ==> MockBroker.Get(g.positions, s) == MockBroker.Get(m'.positions, s)
    {
      assert MockBroker.Get(g.positions, s) == MockBroker.Get(g.broker.positions, s);
    }
  }

  lemma ZeroValue(price: real)
    ensures Value(0.0, price) == 0.0
  {
  }

  lemma FilledInRange(m: MockBroker.Mock, q: MockBroker.Request)
    requires q.quantity > 0.0 && 0.0 <= m.ratio <= 1.0
    ensures 0.0 <= MockBroker.FilledBy(m, q) <= q.quantity
  {
    assert q.quantity * m.ratio >= 0.0;
    assert q.quantity * (1.0 - m.ratio) >= 0.0;
    assert q.quantity * (1.0 - m.ratio) == q.quantity - q.quantity * m.ratio;
  }

  // ---- one submission that reaches the venue

  lemma MirrorExtended(g: Gateway, m': MockBroker.Mock, r: Record)
    requires MirrorOk(g) && r.clientId !in g.store.byClient
    requires SameElsewhere(g.broker, m', r.clientId)
    requires r.filled == MockBroker.FilledAt(m', r.clientId)
    requires Unsettled(r.state) || r.state == REJECTED ==> r.filled == 0.0
    requires r.state == MockBroker.StateAt(m', r.clientId) || (r.state == SUBMITTED && r.clientId !in m'.orders)
    ensures MirrorOk(g.(store := Put(g.store, r), broker := m'))
  {
    var g' := g.(store := Put(g.store, r), broker := m');
    forall c | c in g'.store.byClient
      ensures Mirrored(g', c)
    {
      if c != r.clientId {
        assert Mirrored(g, c);
      }
    }
  }

  // The record a submission leaves, by outcome.
  function FinalRecord(cfg: Config, g: Gateway, a: Ask, out: MockBroker.Outcome): Record {
    var epoch := EpochOf(g, a.intentId);
    var id := ClientOrderId(cfg.session, a.intentId, epoch);
    match out
    case Raised => Record(id, a.intentId, cfg.session, epoch, SUBMITTED, None, 0.0)
    case Responded(resp) => AnswerRecord(cfg, g, a.intentId, resp)
  }

  // The pre-submit writes leave one record, which the answer then overwrites.
  lemma OneRecord(cfg: Config, g: Gateway, a: Ask, r: Record)
    requires r.clientId == RequestFor(cfg, g, a).clientId && r.intentId == a.intentId
    ensures Put(Asked(cfg, g, a).store, r) == Put(g.store, r)
    ensures Asked(cfg, g, a) ==
            g.(store := Put(g.store, FinalRecord(cfg, g, a, MockBroker.Raised)),
               requests := g.requests + [RequestFor(cfg, g, a)])
  {
    var q := RequestFor(cfg, g, a);
    var created := Record(q.clientId, a.intentId, cfg.session, EpochOf(g, a.intentId), CREATED, None, 0.0);
    PutTwice(g.store, created, created.(state := SUBMITTED));
    PutTwice(g.store, created.(state := SUBMITTED), r);
    hide ClientOrderId, Put;
  }

  // What the answer changes outside the store.
  ghost predicate Moved(g: Gateway, g': Gateway, a: Ask, out: MockBroker.Outcome) {
    && g'.kill == g.kill && g'.blocked == g.blocked && g'.started == g.started
    && (if out.Responded? && out.response.filled > 0.0 && out.response.avgPrice.Some? then
          var f := FillInternally(g, a.order, out.response.filled, out.response.avgPrice.value);
          && g'.positions == f.positions && g'.cash == f.cash && g'.capitalUsed == f.capitalUsed
          && g'.load == Load(g.load.orderCount + 1, g.load.turnover + Value(out.response.filled, a.refPrice))
        else
          g'.positions == g.positions && g'.cash == g.cash && g'.capitalUsed == g.capitalUsed
          && g'.load == g.load)
  }

  // What a fill reads and what it leaves alone.
  lemma FillSame(g: Gateway, g1: Gateway, o: Order, filled: real, price: real)
    requires g1.positions == g.positions && g1.cash == g.cash && g1.capitalUsed == g.capitalUsed
    ensures var f, f1 := FillInternally(g, o, filled, price), FillInternally(g1, o, filled, price);
            && f1.positions == f.positions && f1.cash == f.cash && f1.capitalUsed == f.capitalUsed
            && f1 == g1.(positions := f1.positions, cash := f1.cash, capitalUsed := f1.capitalUsed)
  {
    hide Value, MockBroker.Get;
  }

  lemma CountedMoved(g: Gateway, g1: Gateway, a: Ask, resp: MockBroker.Response)
    requires resp.state == UNKNOWN || resp.state == REJECTED ==> resp.filled == 0.0
    requires resp.filled > 0.0 ==> resp.avgPrice.Some? && resp.avgPrice.value > 0.0
    requires g1 == g.(store := g1.store, requests := g1.requests, broker := g1.broker)
    ensures Moved(g, Counted(g1, a, resp), a, MockBroker.Responded(resp))
    ensures Counted(g1, a, resp).broker == g1.broker && Counted(g1, a, resp).requests == g1.requests
  {
    if resp.filled > 0.0 {
      FillSame(g, g1, a.order, resp.filled, resp.avgPrice.value);
    }
    hide Value, FillInternally;
  }

  lemma TakenShape(cfg: Config, g: Gateway, a: Ask, m': MockBroker.Mock, resp: MockBroker.Response)
    requires resp.state in {UNKNOWN, REJECTED, FILLED, PARTIALLY_FILLED}
    requires resp.state == UNKNOWN || resp.state == REJECTED ==> resp.filled == 0.0
    requires resp.filled > 0.0 ==> resp.avgPrice.Some? && resp.avgPrice.value > 0.0
    ensures var q := RequestFor(cfg, g, a);
            var out := MockBroker.Responded(resp);
            var g' := Taken(cfg, Asked(cfg, g, a).(broker := m'), a, resp);
            Extended(cfg, g, g', q, FinalRecord(cfg, g, a, out)) && g'.broker == m' && Moved(g, g', a, out)
  {
    var r := FinalRecord(cfg, g, a, MockBroker.Responded(resp));
    OneRecord(cfg, g, a, r);
    var g1 := Asked(cfg, g, a).(broker := m');
    hide Put, ClientOrderId;
    assert AnswerRecord(cfg, g1, a.intentId, resp) == r;
    assert EpochsAfter(g1, a.intentId, resp.state) == EpochsAfter(g, a.intentId, resp.state);
    CountedMoved(g, g1, a, resp);
    hide Counted, Asked, FillInternally;
  }

  // The request is new to both sides.
  lemma RequestIsNew(cfg: Config, g: Gateway, a: Ask)
    requires Gate(cfg, g, a) == None && StoreOk(cfg, g) && MirrorOk(g)
    ensures RequestFor(cfg, g, a).clientId !in g.store.byClient && RequestFor(cfg, g, a).clientId !in g.broker.orders
    ensures forall c :: c in g.store.byClient && g.store.byClient[c].intentId == a.intentId ==>
              TerminalState(g.store.byClient[c].state)
  {
    GateAllowsRetry(cfg, g, a);
    NewId(cfg, g, a.intentId);
    hide Gate, ClientOrderId, CanRetry, StoreOk;
  }

  // The venue answers it well.
  lemma AskedAnew(cfg: Config, g: Gateway, a: Ask)
    requires Gate(cfg, g, a) == None && StoreOk(cfg, g) && MirrorOk(g)
    ensures var q := RequestFor(cfg, g, a);
            var (m', out) := MockBroker.Submit(g.broker, q);
            && q.clientId !in g.store.byClient
            && AnsweredWell(g.broker.(submits := g.broker.submits + 1), q, m', out)
            && (out.Responded? && out.response.filled > 0.0 ==>
                  out.response.avgPrice.Some? && out.response.avgPrice.value > 0.0)
  {
    RequestIsNew(cfg, g, a);
    var q := RequestFor(cfg, g, a);
    hide *;
    BrokerAnswers(g.broker, q);
    PricePositive(q.refPrice);
    var (m', out) := MockBroker.Submit(g.broker, q);
    PricedAnswer(g.broker.(submits := g.broker.submits + 1), q, m', out);
  }

  lemma PricedAnswer(m: MockBroker.Mock, q: MockBroker.Request, m': MockBroker.Mock, out: MockBroker.Outcome)
    requires AnsweredWell(m, q, m', out)
    ensures out.Responded? && out.response.filled > 0.0 ==>
              out.response.avgPrice.Some? && out.response.avgPrice.value > 0.0
  {
    hide MockBroker.FilledBy, MockBroker.StateAt, MockBroker.FilledAt, SameElsewhere, Value;
  }

  lemma SentShape(cfg: Config, g: Gateway, a: Ask)
    requires g.started && Gate(cfg, g, a) == None && StoreOk(cfg, g) && MirrorOk(g)
    ensures var q := RequestFor(cfg, g, a);
            var (m', out) := MockBroker.Submit(g.broker, q);
            var g' := Submit(cfg, g, a).0;
            Extended(cfg, g, g', q, FinalRecord(cfg, g, a, out)) && g'.broker == m' && Moved(g, g', a, out)
  {
    AskedAnew(cfg, g, a);
    var q := RequestFor(cfg, g, a);
    var (m', out) := MockBroker.Submit(g.broker, q);
    assert out.Responded? ==> out.response.state in {UNKNOWN, REJECTED, FILLED, PARTIALLY_FILLED};
    assert out.Responded? && Unfilled(out.response.state) ==> out.response.filled == 0.0;
    hide Gate, MockBroker.Submit, StoreOk, MirrorOk, AnsweredWell;
    if out.Responded? {
      TakenShape(cfg, g, a, m', out.response);
      hide Asked, Taken, Extended, Moved, FinalRecord, RequestFor;
    } else {
      OneRecord(cfg, g, a, FinalRecord(cfg, g, a, out));
      hide Asked, Taken, Put, ClientOrderId;
    }
  }

  predicate Unfilled(s: BrokerState) {
    s == UNKNOWN || s == REJECTED
  }

  lemma PricePositive(refPrice: real)
    ensures MockBroker.PriceOf(refPrice) > 0.0
  {
  }

  lemma GateAllowsRetry(cfg: Config, g: Gateway, a: Ask)
    requires Gate(cfg, g, a) == None
    ensures CanRetry(g.store, a.intentId) == None && RiskVerdict(cfg, g, a) == None && !g.kill.triggered
  {
    hide CanRetry, RiskVerdict, MockBroker.Fractional;
  }

  lemma SentStore(cfg: Config, g: Gateway, a: Ask)
    requires g.started && Gate(cfg, g, a) == None && StoreOk(cfg, g) && OneOpen(g.store) && MirrorOk(g) && RequestsOk(g)
    ensures var g' := Submit(cfg, g, a).0; StoreOk(cfg, g') && OneOpen(g'.store) && RequestsOk(g')
  {
    RequestIsNew(cfg, g, a);
    SentShape(cfg, g, a);
    var q := RequestFor(cfg, g, a);
    var out := MockBroker.Submit(g.broker, q).1;
    var r := FinalRecord(cfg, g, a, out);
    assert r.clientId == q.clientId && r.intentId == a.intentId;
    var g' := Submit(cfg, g, a).0;
    hide *;
    ExtendedStore(cfg, g, g', q, r);
    ExtendedOneOpen(cfg, g, g', q, r);
    ExtendedRequests(cfg, g, g', q, r);
  }

  // The record left behind says what the venue now says.
  lemma FinalRecordMirrors(cfg: Config, g: Gateway, a: Ask, m: MockBroker.Mock, m': MockBroker.Mock,
                           out: MockBroker.Outcome)
    requires AnsweredWell(m, RequestFor(cfg, g, a), m', out) && RequestFor(cfg, g, a).clientId !in m.orders
    ensures var r := FinalRecord(cfg, g, a, out);
            && SameElsewhere(m, m', r.clientId) && r.filled == MockBroker.FilledAt(m', r.clientId)
            && (Unsettled(r.state) || r.state == REJECTED ==> r.filled == 0.0)
            && (r.state == MockBroker.StateAt(m', r.clientId) || (r.state == SUBMITTED && r.clientId !in m'.orders))
  {
    hide ClientOrderId, BrokerFilled, SameElsewhere;
  }

  // What a submission past the gate does, in the terms of both parties.
  lemma SentFacts(cfg: Config, g: Gateway, a: Ask)
    requires g.started && Gate(cfg, g, a) == None && StoreOk(cfg, g) && MirrorOk(g)
    ensures var q := RequestFor(cfg, g, a);
            var out := MockBroker.Submit(g.broker, q).1;
            var r := FinalRecord(cfg, g, a, out);
            var g' := Submit(cfg, g, a).0;
            && q.clientId !in g.store.byClient && q.clientId !in g.broker.orders && r.clientId == q.clientId
            && AnsweredWell(g.broker.(submits := g.broker.submits + 1), q, g'.broker, out)
            && g'.store == Put(g.store, r) && Moved(g, g', a, out)
  {
    RequestIsNew(cfg, g, a);
    AskedAnew(cfg, g, a);
    SentShape(cfg, g, a);
    hide Gate, MockBroker.Submit, Gateways.Submit, StoreOk, MirrorOk, AnsweredWell, Moved, FinalRecord, Put;
  }

  lemma SentMirror(cfg: Config, g: Gateway, a: Ask)
    requires g.started && Gate(cfg, g, a) == None && StoreOk(cfg, g) && MirrorOk(g)
    ensures MirrorOk(Submit(cfg, g, a).0)
  {
    SentFacts(cfg, g, a);
    var out := MockBroker.Submit(g.broker, RequestFor(cfg, g, a)).1;
    var r := FinalRecord(cfg, g, a, out);
    var g' := Submit(cfg, g, a).0;
    hide *;
    FinalRecordMirrors(cfg, g, a, g.broker.(submits := g.broker.submits + 1), g'.broker, out);
    SameElsewhereFrame(g.broker.(submits := g.broker.submits + 1), g'.broker, g.broker, r.clientId);
    MirrorExtended(g, g'.broker, r);
    MirrorFrame(g.(store := Put(g.store, r), broker := g'.broker), g');
  }

  lemma SameElsewhereFrame(m: MockBroker.Mock, m': MockBroker.Mock, m0: MockBroker.Mock, id: string)
    requires SameElsewhere(m, m', id) && m0.orders == m.orders
    ensures SameElsewhere(m0, m', id)
  {
  }

  lemma MirrorFrame(g: Gateway, g': Gateway)
    requires MirrorOk(g) && g'.store == g.store && g'.broker == g.broker
    ensures MirrorOk(g')
  {
    forall c | c in g'.store.byClient
      ensures Mirrored(g', c)
    {
      assert Mirrored(g, c);
    }
  }

  lemma SentBooks(cfg: Config, g: Gateway, a: Ask)
    requires g.started && Gate(cfg, g, a) == None && StoreOk(cfg, g) && MirrorOk(g) && SameBooks(g) && ValidAsk(a)
    requires 0.0 <= g.broker.ratio <= 1.0
    ensures var g' := Submit(cfg, g, a).0; SameBooks(g') && g'.broker.ratio == g.broker.ratio
  {
    SentFacts(cfg, g, a);
    var q := RequestFor(cfg, g, a);
    var out := MockBroker.Submit(g.broker, q).1;
    var m := g.broker.(submits := g.broker.submits + 1);
    var g' := Submit(cfg, g, a).0;
    assert q.quantity > 0.0 && q.symbol == a.order.symbol && q.side == a.order.side;
    hide *;
    FilledInRange(m, q);
    RatioKept(m, q, g'.broker, out);
    BooksFrame(g, g.(broker := m));
    MovedFrame(g, m, g', a, out);
    BooksMove(g.(broker := m), g', a, q, out);
  }

  lemma MovedFrame(g: Gateway, m: MockBroker.Mock, g': Gateway, a: Ask, out: MockBroker.Outcome)
    requires Moved(g, g', a, out)
    ensures Moved(g.(broker := m), g', a, out)
  {
    if out.Responded? && out.response.avgPrice.Some? {
      FillFrame(g, m, a.order, out.response.filled, out.response.avgPrice.value);
    }
    hide Value, FillInternally;
  }

  lemma FillFrame(g: Gateway, m: MockBroker.Mock, o: Order, filled: real, price: real)
    ensures FillInternally(g.(broker := m), o, filled, price) == FillInternally(g, o, filled, price).(broker := m)
  {
    hide Value, MockBroker.Get;
  }

  lemma RatioKept(m: MockBroker.Mock, q: MockBroker.Request, m': MockBroker.Mock, out: MockBroker.Outcome)
    requires AnsweredWell(m, q, m', out)
    ensures m'.ratio == m.ratio
  {
  }

  lemma BooksMove(g: Gateway, g': Gateway, a: Ask, q: MockBroker.Request, out: MockBroker.Outcome)
    requires AnsweredWell(g.broker, q, g'.broker, out) && Moved(g, g', a, out) && SameBooks(g)
    requires q.symbol == a.order.symbol && q.side == a.order.side && 0.0 <= MockBroker.FilledBy(g.broker, q)
    ensures SameBooks(g')
  {
    if out.Responded? && !Unfilled(out.response.state) {
      hide SameBooks, FillInternally, MockBroker.FilledBy, Value;
      BooksAfterFill(g, g'.broker, q, out.response, a.order);
      if out.response.filled == 0.0 {
        BooksFrame(g.(broker := g'.broker), g');
      } else {
        BooksFrame(FillInternally(g, a.order, out.response.filled, out.response.avgPrice.value).(broker := g'.broker),
                   g');
      }
    }
  }

  lemma BooksFrame(g: Gateway, g': Gateway)
    requires SameBooks(g) && g'.positions == g.positions && g'.cash == g.cash
    requires g'.broker.positions == g.broker.positions && g'.broker.cash == g.broker.cash
    ensures SameBooks(g')
  {
  }

  // ---- every command keeps the invariant

  lemma PlaceKeeps(cfg: Config, g: Gateway, a: Ask)
    requires Inv(cfg, g) && ValidAsk(a)
    ensures Inv(cfg, Submit(cfg, g, a).0)
  {
    if g.started && Gate(cfg, g, a) == None {
      SentStore(cfg, g, a);
      SentMirror(cfg, g, a);
      SentBooks(cfg, g, a);
      SentFacts(cfg, g, a);
      assert Submit(cfg, g, a).0.blocked == None;
      hide Gateways.Submit, Gate, SameBooks, StoreOk, OneOpen, MirrorOk, RequestsOk, AnsweredWell, Moved, FinalRecord;
    } else {
      hide Gate, SameBooks, StoreOk, OneOpen, MirrorOk, RequestsOk;
    }
  }

  // The two parties agree wherever the invariant holds, so reconciling finds nothing and changes nothing.
  lemma InvAgrees(cfg: Config, g: Gateway)
    requires Inv(cfg, g)
    ensures Agrees(g) && Reconciled(g) == g
  {
    forall c | c in g.store.byClient
      ensures !RecordDisputed(g.store.byClient[c], MockBroker.StateAt(g.broker, c))
    {
      assert RecordOk(cfg, g, c) && Mirrored(g, c);
    }
    forall s
      ensures !PositionDisputed(g.positions, MockBroker.ReportedPositions(g.broker), s)
    {
      assert MockBroker.Get(g.positions, s) == MockBroker.Get(g.broker.positions, s);
    }
  }

  // What the invariant depends on.
  lemma InvFrame(cfg: Config, g: Gateway, g': Gateway)
    requires Inv(cfg, g) && g'.store == g.store && g'.epochs == g.epochs && g'.requests == g.requests
    requires g'.positions == g.positions && g'.cash == g.cash && g'.blocked == g.blocked
    requires g'.broker.orders == g.broker.orders && g'.broker.positions == g.broker.positions
    requires g'.broker.cash == g.broker.cash && 0.0 <= g'.broker.ratio <= 1.0
    ensures Inv(cfg, g')
  {
    hide ClientOrderId, OneOpen;
    forall c | c in g.store.byClient
      ensures RecordOk(cfg, g', c) && Mirrored(g', c)
    {
      assert RecordOk(cfg, g, c) && Mirrored(g, c);
    }
  }

  lemma ObeyKeeps(cfg: Config, g: Gateway, c: Command)
    requires Inv(cfg, g) && ValidCommand(c)
    ensures Inv(cfg, Obey(cfg, g, c))
  {
    if c.Place? {
      PlaceKeeps(cfg, g, c.ask);
      hide Inv, Gateways.Submit;
    } else if c.Check? {
      InvAgrees(cfg, g);
      hide Inv;
    } else {
      var g' := Obey(cfg, g, c);
      assert 0.0 <= g.broker.ratio <= 1.0;
      hide Inv, Activate, Reset;
      InvFrame(cfg, g, g');
    }
  }

  lemma {:induction false} RunKeeps(cfg: Config, g: Gateway, cs: seq<Command>)
    requires Inv(cfg, g) && forall i :: 0 <= i < |cs| ==> ValidCommand(cs[i])
    ensures Inv(cfg, Run(cfg, g, cs))
    decreases |cs|
  {
    hide Inv, Obey;
    if cs != [] {
      ObeyKeeps(cfg, g, cs[0]);
      RunKeeps(cfg, Obey(cfg, g, cs[0]), cs[1..]);
    }
  }

  // Whatever the venue does and however the commands interleave: both books are equal, every record says what the
  // venue says, every reconciliation passes and the gateway is never blocked.
  lemma NeverDiverge(cfg: Config, behavior: MockBroker.Behavior, cs: seq<Command>)
    requires forall i :: 0 <= i < |cs| ==> ValidCommand(cs[i])
    ensures var g := Run(cfg, New(cfg, behavior), cs);
            && Inv(cfg, g) && Agrees(g) && g.blocked == None
            && g.cash == g.broker.cash
            && forall s :: MockBroker.Get(g.positions, s) == MockBroker.Get(g.broker.positions, s)
  {
    RunKeeps(cfg, New(cfg, behavior), cs);
    hide Run;
    InvAgrees(cfg, Run(cfg, New(cfg, behavior), cs));
    hide Agrees, StoreOk, OneOpen, MirrorOk, RequestsOk;
  }

  // ---- recovery

  // In a reachable state a started gateway recovers exactly when nothing is UNKNOWN and the switch is armed; a
  // record left UNKNOWN is never adopted as filled.
  lemma RecoversIff(cfg: Config, g: Gateway, g': Gateway, result: Recovery)
    requires Inv(cfg, g) && Recovers(g, g', result)
    ensures g' == g
    ensures result == Recovered <==> g.started && !g.kill.triggered && !AnyUnknown(g.store)
    ensures result == StillUnknown <==> g.started && AnyUnknown(g.store)
    ensures result == SwitchActive <==> g.started && g.kill.triggered && !AnyUnknown(g.store)
  {
    InvAgrees(cfg, g);
    hide Agrees, RequestsOk, SameBooks, OneOpen, Reconciled;
    forall i, c | UnknownRecord(g.store, i, c)
      ensures MockBroker.StateAt(g.broker, c) == UNKNOWN
    {
      assert Mirrored(g, c);
    }
    assert AnyUnknown(g.store) <==> UnknownSeenAs(g, UNKNOWN) by {
      if AnyUnknown(g.store) {
        var i, c :| UnknownRecord(g.store, i, c);
      }
    }
    assert !UnknownSeenAs(g, FILLED);
  }
}
