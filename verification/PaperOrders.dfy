// Order intents and their status machine: paper/orders.py.

module PaperOrders {
  import opened Trading

  datatype Status = Created | Validated | Accepted | PartiallyFilled | Filled | Rejected | Cancelled | Expired

  // The legal directed transitions; every other one raises.
  predicate Allowed(from: Status, to: Status) {
    match from
    case Created => to == Validated || to == Rejected
    case Validated => to == Accepted || to == Rejected
    case Accepted => to in {PartiallyFilled, Filled, Cancelled, Expired, Rejected}
    case PartiallyFilled => to in {Filled, Cancelled, Expired}
    case _ => false
  }

  predicate Terminal(s: Status) {
    s in {Filled, Rejected, Cancelled, Expired}
  }

  datatype Intent = Intent(id: Id, session: string, order: Order, status: Status, filled: real,
                           reason: Option<string>, signalTs: int, scheduled: Option<int>)

  function Remaining(i: Intent): real {
    if i.order.quantity - i.filled > 0.0 then i.order.quantity - i.filled else 0.0
  }

  // None when the transition is illegal and the original raises.
  function Transition(i: Intent, to: Status, reason: Option<string>): Option<Intent> {
    if Allowed(i.status, to) then
      Some(i.(status := to, reason := if reason.Some? then reason else i.reason))
    else None
  }

  // Deterministic identifiers; the order takes its own.
  function MakeIntent(session: string, order: Order, signal: Signal, eventSeq: int): Intent {
    var q8 := Fixed8(order.quantity);
    var id := IntentId(session, eventSeq, order.symbol, order.side, q8, order.timestamp, signal.timestamp);
    var orderId := OrderId(session, eventSeq, order.symbol, order.side, q8, order.timestamp);
    Intent(id, session, order.(id := orderId), Created, 0.0, None, signal.timestamp, None)
  }

  function IsSpace(c: char): bool {
    c == ' ' || '\t' <= c <= '\r'
  }

  predicate Blank(s: string) {
    forall i :: 0 <= i < |s| ==> IsSpace(s[i])
  }

  // The reject reason of a structurally invalid order.
  function StructuralReason(o: Order): Option<string> {
    if o.quantity <= 0.0 then Some("invalid_quantity")
    else if o.orderType != Market then Some("unsupported_order_type")
    else if Blank(o.symbol) then Some("missing_symbol")
    else None
  }

  class OrderIntent {
    const id: Id
    const session: string
    const order: Order
    const signalTs: int
    var status: Status
    var filled: real
    var reason: Option<string>
    var scheduled: Option<int>

    function View(): Intent
      reads this
    {
      Intent(id, session, order, status, filled, reason, signalTs, scheduled)
    }

    constructor (session: string, order: Order, signal: Signal, eventSeq: int)
      ensures View() == MakeIntent(session, order, signal, eventSeq)
    {
      var q8 := Fixed8(order.quantity);
      this.id := IntentId(session, eventSeq, order.symbol, order.side, q8, order.timestamp, signal.timestamp);
      this.session := session;
      this.order := order.(id := OrderId(session, eventSeq, order.symbol, order.side, q8, order.timestamp));
      signalTs := signal.timestamp;
      status, filled, reason, scheduled := Created, 0.0, None, None;
    }

    // legal is false when the original raises; nothing has changed then.
    method MoveTo(to: Status, why: Option<string>) returns (legal: bool)
      modifies this
      ensures legal == Allowed(old(status), to)
      ensures legal ==> Some(View()) == Transition(old(View()), to, why)
      ensures !legal ==> View() == old(View())
    {
      if !Allowed(status, to) {
        return false;
      }
      status := to;
      if why.Some? {
        reason := why;
      }
      return true;
    }
  }
}
