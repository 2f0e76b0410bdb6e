// Typed models shared by every engine: orders, fills, bars, strategy contexts.
// Mirrors trading/models.py, strategies/base.py, data/models.py and the event model of paper/models.py.

module Trading {

  datatype Option<+T> = None | Some(value: T)

  datatype Result<+T, +E> = Ok(value: T) | Err(error: E)

  const EPS9: real := 0.000000001
  const EPS6: real := 0.000001

  // More than a tolerance between two numbers, whichever is larger.
  predicate Apart(x: real, y: real, tol: real) {
    x - y > tol || y - x > tol
  }

  datatype Side = Buy | Sell

  datatype OrderType = Market | Limit

  // Identifiers are hashes of their parts (or random uuids); a term of this type stands for the hash of its parts.
  datatype Id =
    | Uuid(n: nat)
    | IntentId(session: string, eventSeq: int, symbol: string, side: Side, quantity8: int, ts: int, signalTs: int)
    | OrderId(session: string, eventSeq: int, symbol: string, side: Side, quantity8: int, ts: int)
    | FillId(session: string, order: Id, fillSeq: nat, symbol: string, quantity8: int, price8: int)

  // The eight-decimal rendering used inside the hashed parts.
  function Fixed8(x: real): int {
    (x * 100000000.0 + 0.5).Floor
  }

  datatype Order = Order(id: Id, timestamp: int, symbol: string, side: Side, quantity: real, orderType: OrderType)

  datatype Fill = Fill(id: Id, orderId: Id, timestamp: int, symbol: string, side: Side, quantity: real,
                       price: real, slippagePerUnit: real, transactionCost: real, grossValue: real, netCash: real)

  // What the Fill constructor enforces.
  predicate ValidFill(f: Fill) {
    f.quantity > 0.0 && f.price > 0.0
  }

  // The value of a quantity at a price.
  function Value(quantity: real, price: real): real {
    quantity * price
  }

  lemma ValuePositive(quantity: real, price: real)
    requires quantity > 0.0 && price > 0.0
    ensures Value(quantity, price) > 0.0
  {
  }

  // Cash moves by the gross value, and costs are always paid.
  predicate BalancedFill(f: Fill) {
    f.netCash == if f.side == Buy then -(Value(f.quantity, f.price) + f.transactionCost)
                 else Value(f.quantity, f.price) - f.transactionCost
  }

  // Two fills that differ at most in their identifiers.
  predicate SameTrade(f: Fill, g: Fill) {
    f == g.(id := f.id, orderId := f.orderId)
  }

  predicate SameTrades(fs: seq<Fill>, gs: seq<Fill>) {
    |fs| == |gs| && forall i :: 0 <= i < |fs| ==> SameTrade(fs[i], gs[i])
  }

  datatype Bar = Bar(timestamp: int, symbol: string, open: real, high: real, low: real, close: real, volume: real)

  // What the MarketBar and MarketDataEvent constructors enforce on prices.
  predicate ValidBar(b: Bar) {
    && b.open > 0.0 && b.high > 0.0 && b.low > 0.0 && b.close > 0.0
    && b.volume >= 0.0
    && b.high >= b.low
    && b.high >= b.open && b.high >= b.close
    && b.low <= b.open && b.low <= b.close
  }

  datatype Event = Event(id: string, seqNo: int, bar: Bar, instrumentId: Option<string>, sessionDate: Option<int>)

  predicate ValidEvent(e: Event) {
    e.seqNo >= 0 && ValidBar(e.bar)
  }

  const SECONDS_PER_DAY: int := 86400

  // Dates are day numbers, timestamps are seconds.
  function SessionDate(e: Event): int {
    match e.sessionDate
    case Some(d) => d
    case None => e.bar.timestamp / SECONDS_PER_DAY
  }

  datatype Action = BuySignal | SellSignal | Hold

  datatype Signal = Signal(timestamp: int, symbol: string, action: Action, target: Option<real>)

  datatype Context = Context(timestamp: int, symbol: string, history: seq<Bar>, position: real, cash: real,
                             membership: Option<string>)

  datatype Decision = Decision(signal: Signal, orders: seq<Order>) | Raises

  // A deterministic strategy: its answer is a function of every context it has been shown so far.
  type Strategy = seq<Context> -> Decision

  predicate Increasing(bars: seq<Bar>) {
    forall i, j :: 0 <= i < j < |bars| ==> bars[i].timestamp < bars[j].timestamp
  }
}
