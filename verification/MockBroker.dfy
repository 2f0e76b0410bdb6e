// The in-process venue: execution/mock_broker.py and the capability check of execution/capabilities.py.

module MockBroker {
  import opened Trading
  import opened LiveOrders

  datatype Behavior = FillAll | FillPart | RejectAll | TimeOut | Disconnect

  datatype Request = Request(clientId: string, symbol: string, side: Side, quantity: real, session: string,
                             intentId: string, refPrice: real)

  datatype BrokerOrder = BrokerOrder(request: Request, state: BrokerState, filled: real, brokerOrderId: Option<string>,
                                     avgPrice: Option<real>)

  datatype Mock = Mock(behavior: Behavior, ratio: real, connected: bool, orders: map<string, BrokerOrder>,
                       positions: map<string, real>, averages: map<string, real>, cash: real, seqNo: nat, submits: nat)

  datatype Response = Response(state: BrokerState, brokerOrderId: Option<string>, reason: Option<string>, filled: real,
                               avgPrice: Option<real>)

  // Raised is a CapabilityError or the division by a zero new quantity.
  datatype Outcome = Responded(response: Response) | Raised

  function Get(m: map<string, real>, s: string): real {
    if s in m then m[s] else 0.0
  }

  // int() truncates toward zero.
  function Truncated(x: real): int {
    if x >= 0.0 then x.Floor else -((-x).Floor)
  }

  predicate Fractional(quantity: real) {
    quantity - Truncated(quantity) as real > EPS9 || Truncated(quantity) as real - quantity > EPS9
  }

  function PriceOf(refPrice: real): real {
    if refPrice > 0.0 then refPrice else 100.0
  }

  function FilledBy(m: Mock, r: Request): real {
    if m.behavior == FillPart then Value(r.quantity, m.ratio) else r.quantity
  }

  function Noted(m: Mock, r: Request, s: BrokerState): Mock {
    m.(orders := m.orders[r.clientId := BrokerOrder(r, s, 0.0, None, None)])
  }

  function Refusal(s: BrokerState, reason: string): Outcome {
    Responded(Response(s, None, Some(reason), 0.0, None))
  }

  // A fill's effect on the venue's book.
  function Booked(m: Mock, r: Request, filled: real, price: real): Mock {
    var prev := Get(m.positions, r.symbol);
    var state := if m.behavior == FillPart then PARTIALLY_FILLED else FILLED;
    var id := ClientOrderId(r.session, "broker|" + r.intentId, m.seqNo);
    var m' := m.(orders := m.orders[r.clientId := BrokerOrder(r, state, filled, Some(id), Some(price))]);
    if r.side == Buy then
      var average := if prev == 0.0 then price
                     else if prev + filled == 0.0 then 0.0
                     else (Value(prev, if r.symbol in m.averages then m.averages[r.symbol] else price)
                           + Value(filled, price)) / (prev + filled);
      m'.(averages := m.averages[r.symbol := average], positions := m.positions[r.symbol := prev + filled],
          cash := m.cash - Value(filled, price))
    else
      m'.(positions := m.positions[r.symbol := prev - filled], cash := m.cash + Value(filled, price))
  }

  // The last part of submit_order: fill, part-fill or refuse for want of cash or holdings.
  function Trade(m: Mock, r: Request): (Mock, Outcome) {
    var m1 := m.(seqNo := m.seqNo + 1);
    var price := PriceOf(r.refPrice);
    var filled := FilledBy(m, r);
    var prev := Get(m.positions, r.symbol);
    if r.side == Buy && Value(filled, price) > m.cash + EPS9 then
      (Noted(m1, r, REJECTED), Refusal(REJECTED, "insufficient_cash"))
    else if r.side == Buy && prev != 0.0 && prev + filled == 0.0 then (m1, Raised)
    else if r.side == Sell && filled > prev + EPS9 then
      (Noted(m1, r, REJECTED), Refusal(REJECTED, "insufficient_position"))
    else
      var m2 := Booked(m1, r, filled, price);
      var o := m2.orders[r.clientId];
      (m2, Responded(Response(o.state, o.brokerOrderId, None, filled, Some(price))))
  }

  // submit_order: the venue afterwards and what it answers.
  function Submit(m0: Mock, r: Request): (Mock, Outcome) {
    var m := m0.(submits := m0.submits + 1);
    if !m.connected || m.behavior == Disconnect then (m, Refusal(UNKNOWN, "broker_disconnected"))
    else if Fractional(r.quantity) then (m, Raised)
    else if m.behavior == TimeOut then (Noted(m, r, UNKNOWN), Refusal(UNKNOWN, "timeout_unknown"))
    else if m.behavior == RejectAll then (Noted(m, r, REJECTED), Refusal(REJECTED, "mock_reject"))
    else Trade(m, r)
  }

  // get_order: a missing order reads as UNKNOWN with nothing filled.
  function StateAt(m: Mock, clientId: string): BrokerState {
    if clientId in m.orders then m.orders[clientId].state else UNKNOWN
  }

  function FilledAt(m: Mock, clientId: string): real {
    if clientId in m.orders then m.orders[clientId].filled else 0.0
  }

  const DUST := 0.000000000001

  // get_positions drops dust.
  function ReportedPositions(m: Mock): map<string, real> {
    map s | s in m.positions && (m.positions[s] > DUST || m.positions[s] < -DUST) :: m.positions[s]
  }

  class MockBrokerAdapter {
    var behavior: Behavior
    var ratio: real
    var connected: bool
    var orders: map<string, BrokerOrder>
    var positions: map<string, real>
    var averages: map<string, real>
    var cash: real
    var seqNo: nat
    var submits: nat

    function View(): Mock
      reads this
    {
      Mock(behavior, ratio, connected, orders, positions, averages, cash, seqNo, submits)
    }

    constructor (initialCash: real, behavior: Behavior)
      ensures View() == Mock(behavior, 0.5, false, map[], map[], map[], initialCash, 0, 0)
    {
      this.behavior, ratio, connected := behavior, 0.5, false;
      orders, positions, averages, cash, seqNo, submits := map[], map[], map[], initialCash, 0, 0;
    }

    method Connect()
      modifies this`connected
      ensures connected == (behavior != Disconnect)
    {
      connected := behavior != Disconnect;
    }

    method Drop()
      modifies this`connected
      ensures !connected
    {
      connected := false;
    }

    method SubmitOrder(r: Request) returns (outcome: Outcome)
      modifies this
      ensures (View(), outcome) == Submit(old(View()), r)
    {
      hide Fractional, Trade;
      submits := submits + 1;
      if !connected || behavior == Disconnect {
        return Refusal(UNKNOWN, "broker_disconnected");
      }
      if Fractional(r.quantity) {
        return Raised;
      }
      if behavior == TimeOut {
        orders := orders[r.clientId := BrokerOrder(r, UNKNOWN, 0.0, None, None)];
        return Refusal(UNKNOWN, "timeout_unknown");
      }
      if behavior == RejectAll {
        orders := orders[r.clientId := BrokerOrder(r, REJECTED, 0.0, None, None)];
        return Refusal(REJECTED, "mock_reject");
      }
      outcome := TradeOrder(r);
    }

    method TradeOrder(r: Request) returns (outcome: Outcome)
      modifies this
      ensures (View(), outcome) == Trade(old(View()), r)
    {
      hide ClientOrderId, Value;
      seqNo := seqNo + 1;
      var id := ClientOrderId(r.session, "broker|" + r.intentId, seqNo);
      var price := PriceOf(r.refPrice);
      var filled := FilledBy(View(), r);
      var state := if behavior == FillPart then PARTIALLY_FILLED else FILLED;
      var prev := Get(positions, r.symbol);
      if r.side == Buy {
        var cost := Value(filled, price);
        if cost > cash + EPS9 {
          orders := orders[r.clientId := BrokerOrder(r, REJECTED, 0.0, None, None)];
          return Refusal(REJECTED, "insufficient_cash");
        }
        var quantity := prev + filled;
        if prev == 0.0 {
          averages := averages[r.symbol := price];
        } else {
          if quantity == 0.0 {
            return Raised;
          }
          var average := if r.symbol in averages then averages[r.symbol] else price;
          averages := averages[r.symbol := (Value(prev, average) + cost) / quantity];
        }
        positions := positions[r.symbol := quantity];
        cash := cash - cost;
      } else {
        if filled > prev + EPS9 {
          orders := orders[r.clientId := BrokerOrder(r, REJECTED, 0.0, None, None)];
          return Refusal(REJECTED, "insufficient_position");
        }
        positions := positions[r.symbol := prev - filled];
        cash := cash + Value(filled, price);
      }
      orders := orders[r.clientId := BrokerOrder(r, state, filled, Some(id), Some(price))];
      return Responded(Response(state, Some(id), None, filled, Some(price)));
    }
  }
}
