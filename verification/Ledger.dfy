// Long-only average-cost accounting: backtest/portfolio.py.
// Book is the abstract value of a Portfolio; the class at the end updates its fields in place.

module Ledger {
  import opened Trading
  import opened Sums

  datatype Position = Position(quantity: real, average: real)

  datatype EquityPoint = EquityPoint(
    timestamp: int, cash: real, marketValue: real, equity: real, realized: real, unrealized: real)

  datatype Book = Book(
    cash: real, positions: map<string, Position>, realized: real, costs: real, slippage: real,
    marks: map<string, real>, fills: seq<Fill>, curve: seq<EquityPoint>)

  function Fresh(cash: real): Book {
    Book(cash, map[], 0.0, 0.0, 0.0, map[], [], [])
  }

  function Holding(b: Book, symbol: string): Position {
    if symbol in b.positions then b.positions[symbol] else Position(0.0, 0.0)
  }

  function Quantity(b: Book, symbol: string): real {
    Holding(b, symbol).quantity
  }

  function MarkOf(b: Book, symbol: string): real {
    if symbol in b.marks then b.marks[symbol] else Holding(b, symbol).average
  }

  function ValueOf(b: Book, symbol: string): real {
    Value(Quantity(b, symbol), MarkOf(b, symbol))
  }

  // Entry value of a position: average price times quantity.
  function EntryOf(p: Position): real {
    Value(p.quantity, p.average)
  }

  ghost function MarketValues(b: Book): map<string, real> {
    map s | s in b.positions :: ValueOf(b, s)
  }

  ghost function Unrealizeds(b: Book): map<string, real> {
    map s | s in b.positions :: UnrealizedOf(b, s)
  }

  function UnrealizedOf(b: Book, symbol: string): real {
    var p := Holding(b, symbol);
    if p.quantity == 0.0 then 0.0 else (MarkOf(b, symbol) - p.average) * p.quantity
  }

  ghost function EntryValues(b: Book): map<string, real> {
    map s | s in b.positions :: EntryOf(b.positions[s])
  }

  ghost function MarketValue(b: Book): real { Sum(MarketValues(b)) }

  ghost function Unrealized(b: Book): real { Sum(Unrealizeds(b)) }

  ghost function EntryValue(b: Book): real { Sum(EntryValues(b)) }

  ghost function Equity(b: Book): real { b.cash + MarketValue(b) }

  function SetMark(b: Book, symbol: string, price: real): Book {
    b.(marks := b.marks[symbol := price])
  }

  ghost function PointOf(b: Book, timestamp: int): EquityPoint {
    EquityPoint(timestamp, b.cash, MarketValue(b), Equity(b), b.realized, Unrealized(b))
  }

  ghost function Record(b: Book, timestamp: int): Book {
    b.(curve := b.curve + [PointOf(b, timestamp)])
  }

  // When apply_fill raises ValueError.
  predicate Refuses(b: Book, f: Fill) {
    if f.side == Buy then Quantity(b, f.symbol) + f.quantity <= 0.0
    else f.quantity > Quantity(b, f.symbol) + EPS9
  }

  function SlippageOf(f: Fill): real {
    (if f.slippagePerUnit < 0.0 then -f.slippagePerUnit else f.slippagePerUnit) * f.quantity
  }

  // Realized profit of a sale: average entry against fill price; costs are already in cash.
  function GainOf(p: Position, f: Fill): real {
    (f.price - p.average) * f.quantity
  }

  function HoldingAfter(p: Position, f: Fill): Position
    requires f.side == Buy ==> p.quantity + f.quantity > 0.0
  {
    if f.side == Buy then
      var q := p.quantity + f.quantity;
      Position(q, if p.quantity == 0.0 then f.price else (EntryOf(p) + Value(f.quantity, f.price)) / q)
    else
      var q := p.quantity - f.quantity;
      Position(q, if q == 0.0 then 0.0 else p.average)
  }

  // The fill and its costs are recorded before the checks that may raise.
  function Noted(b: Book, f: Fill): Book {
    b.(fills := b.fills + [f],
       costs := b.costs + f.transactionCost,
       slippage := b.slippage + SlippageOf(f))
  }

  // The state apply_fill leaves behind, whether or not it raises.
  function AfterFill(b: Book, f: Fill): Book {
    if Refuses(b, f) then Noted(b, f)
    else
      var p := Holding(b, f.symbol);
      Noted(b, f).(
        cash := b.cash + f.netCash,
        positions := b.positions[f.symbol := HoldingAfter(p, f)],
        realized := if f.side == Buy then b.realized else b.realized + GainOf(p, f),
        marks := b.marks[f.symbol := f.price])
  }

  // ---- profit and loss identity

  datatype Op = DoFill(fill: Fill) | DoMark(symbol: string, price: real) | DoRecord(timestamp: int)

  ghost function ApplyOp(b: Book, op: Op): Book {
    match op
    case DoFill(f) => AfterFill(b, f)
    case DoMark(s, p) => SetMark(b, s, p)
    case DoRecord(t) => Record(b, t)
  }

  // The operation does not raise, and a fill's cash movement is the one its factory computed.
  predicate Accepted(b: Book, op: Op) {
    op.DoFill? ==> !Refuses(b, op.fill) && BalancedFill(op.fill)
  }

  ghost predicate AllAccepted(b: Book, ops: seq<Op>)
    decreases |ops|
  {
    ops == [] || (Accepted(b, ops[0]) && AllAccepted(ApplyOp(b, ops[0]), ops[1..]))
  }

  ghost function RunOps(b: Book, ops: seq<Op>): Book
    decreases |ops|
  {
    if ops == [] then b else RunOps(ApplyOp(b, ops[0]), ops[1..])
  }

  // What neither a fill nor a mark can change.
  ghost function Balance(b: Book): real {
    b.cash + EntryValue(b) - b.realized + b.costs
  }

  // How one fill moves a position's entry value.
  function EntryChange(p: Position, f: Fill): real {
    if f.side == Buy then Value(f.quantity, f.price) else -Value(f.quantity, p.average)
  }

  lemma EntryAfterBuy(p: Position, quantity: real, value: real, average: real)
    requires p.quantity + quantity > 0.0
    requires average == (EntryOf(p) + value) / (p.quantity + quantity)
    ensures EntryOf(Position(p.quantity + quantity, average)) == EntryOf(p) + value
  {
    DivideBack(EntryOf(p) + value, p.quantity + quantity);
  }

  lemma EntryAfterSell(p: Position, quantity: real)
    ensures EntryOf(Position(p.quantity - quantity, p.average)) == EntryOf(p) - Value(quantity, p.average)
  {
  }

  lemma EntryAfterFirstBuy(p: Position, quantity: real, price: real)
    requires p.quantity == 0.0
    ensures EntryOf(Position(p.quantity + quantity, price)) == EntryOf(p) + Value(quantity, price)
  {
    assert EntryOf(p) == 0.0;
  }

  lemma NoEntry(average: real)
    ensures EntryOf(Position(0.0, average)) == EntryOf(Position(0.0, 0.0))
  {
  }

  lemma EntryStep(p: Position, f: Fill)
    requires f.side == Buy ==> p.quantity + f.quantity > 0.0
    ensures EntryOf(HoldingAfter(p, f)) == EntryOf(p) + EntryChange(p, f)
  {
    hide EntryOf, Value;
    if f.side == Sell {
      EntryAfterSell(p, f.quantity);
      if p.quantity - f.quantity == 0.0 {
        assert HoldingAfter(p, f) == Position(0.0, 0.0);
        NoEntry(p.average);
      } else {
        assert HoldingAfter(p, f) == Position(p.quantity - f.quantity, p.average);
      }
    } else if p.quantity == 0.0 {
      EntryAfterFirstBuy(p, f.quantity, f.price);
      assert HoldingAfter(p, f) == Position(p.quantity + f.quantity, f.price);
    } else {
      var average := (EntryOf(p) + Value(f.quantity, f.price)) / (p.quantity + f.quantity);
      EntryAfterBuy(p, f.quantity, Value(f.quantity, f.price), average);
      assert HoldingAfter(p, f) == Position(p.quantity + f.quantity, average);
    }
  }

  lemma DivideBack(n: real, d: real)
    requires d != 0.0
    ensures (n / d) * d == n
  {
  }

  lemma EntryValueAfterFill(b: Book, f: Fill)
    requires !Refuses(b, f)
    ensures EntryValue(AfterFill(b, f)) == EntryValue(b) + EntryChange(Holding(b, f.symbol), f)
  {
    hide EntryOf, HoldingAfter, EntryChange;
    var p := Holding(b, f.symbol);
    var p' := HoldingAfter(p, f);
    var b' := AfterFill(b, f);
    EntryStep(p, f);
    assert b'.positions == b.positions[f.symbol := p'];
    assert EntryValues(b') == EntryValues(b)[f.symbol := EntryOf(p')];
    SumUpdate(EntryValues(b), f.symbol, EntryOf(p'));
    NothingHeld();
  }

  lemma NothingHeld()
    ensures EntryOf(Position(0.0, 0.0)) == 0.0
  {
  }

  lemma GainSplit(p: Position, f: Fill)
    ensures GainOf(p, f) == Value(f.quantity, f.price) - Value(f.quantity, p.average)
  {
  }

  // Cash plus entry value of a fill, net of the realized profit and the cost it books.
  lemma FillBalances(b: Book, f: Fill)
    requires !Refuses(b, f) && BalancedFill(f)
    ensures var b' := AfterFill(b, f);
            b'.cash + EntryChange(Holding(b, f.symbol), f) - b'.realized + b'.costs == b.cash - b.realized + b.costs
  {
    hide HoldingAfter, SlippageOf, GainOf, Value;
    var p := Holding(b, f.symbol);
    GainSplit(p, f);
  }

  lemma BalanceKept(b: Book, op: Op)
    requires Accepted(b, op)
    ensures Balance(ApplyOp(b, op)) == Balance(b)
  {
    match op
    case DoMark(s, p) => assert EntryValues(SetMark(b, s, p)) == EntryValues(b);
    case DoRecord(t) => assert EntryValues(Record(b, t)) == EntryValues(b);
    case DoFill(f) =>
      hide AfterFill, EntryChange, EntryValue;
      EntryValueAfterFill(b, f);
      FillBalances(b, f);
  }

  lemma EquitySplit(b: Book)
    ensures Equity(b) == b.cash + EntryValue(b) + Unrealized(b)
  {
    forall s | s in b.positions
      ensures MarketValues(b)[s] == EntryValues(b)[s] + Unrealizeds(b)[s]
    {
      var p := b.positions[s];
      assert (MarkOf(b, s) - p.average) * p.quantity == Value(p.quantity, MarkOf(b, s)) - Value(p.quantity, p.average);
    }
    SumAdd(EntryValues(b), Unrealizeds(b), MarketValues(b));
  }

  lemma {:induction false} BalanceOverRun(b: Book, ops: seq<Op>)
    requires AllAccepted(b, ops)
    ensures Balance(RunOps(b, ops)) == Balance(b)
    decreases |ops|
  {
    if ops != [] {
      BalanceKept(b, ops[0]);
      BalanceOverRun(ApplyOp(b, ops[0]), ops[1..]);
    }
  }

  // The final book splits into initial cash, realized and unrealized profit, and costs; cash plus entry value moves
  // only by realized profit and costs.
  lemma ProfitAndLossIdentity(initial: real, ops: seq<Op>)
    requires AllAccepted(Fresh(initial), ops)
    ensures var b := RunOps(Fresh(initial), ops);
            && Equity(b) == initial + b.realized + Unrealized(b) - b.costs
            && b.cash + EntryValue(b) == initial + b.realized - b.costs
  {
    var b0 := Fresh(initial);
    assert EntryValues(b0) == map[];
    assert Balance(b0) == initial;
    BalanceOverRun(b0, ops);
    EquitySplit(RunOps(b0, ops));
  }

  lemma {:induction false} CurveFromPrefix(b: Book, ops: seq<Op>, j: nat) returns (n: nat)
    requires |b.curve| <= j < |RunOps(b, ops).curve|
    ensures n < |ops| && ops[n].DoRecord? && RunOps(b, ops).curve[j] == PointOf(RunOps(b, ops[..n]), ops[n].timestamp)
    decreases |ops|
  {
    hide HoldingAfter, PointOf;
    var b1 := ApplyOp(b, ops[0]);
    CurveKept(b1, ops[1..]);
    if j < |b1.curve| {
      n := 0;
      assert RunOps(b, ops[..0]) == b;
    } else {
      var m := CurveFromPrefix(b1, ops[1..], j);
      n := m + 1;
      assert ops[..n][0] == ops[0] && ops[..n][1..] == ops[1..][..m];
    }
  }

  lemma {:induction false} CurveKept(b: Book, ops: seq<Op>)
    ensures b.curve <= RunOps(b, ops).curve
    decreases |ops|
  {
    hide PointOf, HoldingAfter;
    if ops != [] {
      CurveKept(ApplyOp(b, ops[0]), ops[1..]);
    }
  }

  lemma {:induction false} AcceptedPrefix(b: Book, ops: seq<Op>, n: nat)
    requires AllAccepted(b, ops) && n <= |ops|
    ensures AllAccepted(b, ops[..n])
    decreases |ops|
  {
    hide ApplyOp, Accepted;
    if n > 0 {
      AcceptedPrefix(ApplyOp(b, ops[0]), ops[1..], n - 1);
      assert ops[..n][1..] == ops[1..][..n - 1];
    }
  }

  // Every equity point ever recorded is that of the book after some prefix of the operations, and splits the same way.
  lemma {:induction false} EveryPointSplits(initial: real, ops: seq<Op>, j: nat) returns (n: nat)
    requires AllAccepted(Fresh(initial), ops) && j < |RunOps(Fresh(initial), ops).curve|
    ensures n < |ops|
    ensures var point, b := RunOps(Fresh(initial), ops).curve[j], RunOps(Fresh(initial), ops[..n]);
            && ops[n].DoRecord? && point == PointOf(b, ops[n].timestamp)
            && point.equity == initial + point.realized + point.unrealized - b.costs
  {
    n := CurveFromPrefix(Fresh(initial), ops, j);
    AcceptedPrefix(Fresh(initial), ops, n);
    ProfitAndLossIdentity(initial, ops[..n]);
    hide RunOps, AllAccepted, Unrealized, MarketValue;
  }

  // ---- the mutable portfolio

  class Portfolio {
    var cash: real
    var positions: map<string, Position>
    var realized: real
    var costs: real
    var slippage: real
    var marks: map<string, real>
    var fills: seq<Fill>
    var curve: seq<EquityPoint>

    function View(): Book
      reads this
    {
      Book(cash, positions, realized, costs, slippage, marks, fills, curve)
    }

    constructor (initial: real)
      ensures View() == Fresh(initial)
    {
      cash, positions, realized, costs, slippage := initial, map[], 0.0, 0.0, 0.0;
      marks, fills, curve := map[], [], [];
    }

    method TotalMarketValue() returns (total: real)
      ensures total == MarketValue(View())
    {
      hide ValueOf;
      total := 0.0;
      var left := positions.Keys;
      ghost var rest := MarketValues(View());
      while left != {}
        invariant left <= positions.Keys && rest.Keys == left
        invariant forall s :: s in rest ==> rest[s] == ValueOf(View(), s)
        invariant total + Sum(rest) == MarketValue(View())
        decreases |left|
      {
        var s :| s in left;
        SumSplit(rest, s);
        rest := rest - {s};
        total := total + ValueOf(View(), s);
        left := left - {s};
      }
      assert rest == map[];
    }

    method UnrealizedPnl() returns (total: real)
      ensures total == Unrealized(View())
    {
      hide UnrealizedOf;
      total := 0.0;
      var left := positions.Keys;
      ghost var rest := Unrealizeds(View());
      while left != {}
        invariant left <= positions.Keys && rest.Keys == left
        invariant forall s :: s in rest ==> rest[s] == UnrealizedOf(View(), s)
        invariant total + Sum(rest) == Unrealized(View())
        decreases |left|
      {
        var s :| s in left;
        SumSplit(rest, s);
        rest := rest - {s};
        total := total + UnrealizedOf(View(), s);
        left := left - {s};
      }
      assert rest == map[];
    }

    method UpdateMark(symbol: string, price: real)
      modifies this
      ensures View() == SetMark(old(View()), symbol, price)
    {
      marks := marks[symbol := price];
    }

    // ok is false when the original raises.
    method ApplyFill(f: Fill) returns (ok: bool)
      modifies this
      ensures ok == !Refuses(old(View()), f)
      ensures View() == AfterFill(old(View()), f)
    {
      hide EntryOf, GainOf, SlippageOf, Value;
      fills := fills + [f];
      costs := costs + f.transactionCost;
      slippage := slippage + SlippageOf(f);
      var p := if f.symbol in positions then positions[f.symbol] else Position(0.0, 0.0);
      if f.side == Buy {
        var q := p.quantity + f.quantity;
        if q <= 0.0 {
          return false;
        }
        var avg;
        if p.quantity == 0.0 {
          avg := f.price;
        } else {
          avg := (EntryOf(p) + Value(f.quantity, f.price)) / q;
        }
        p := Position(q, avg);
        cash := cash + f.netCash;
      } else {
        if f.quantity > p.quantity + EPS9 {
          return false;
        }
        realized := realized + GainOf(p, f);
        p := p.(quantity := p.quantity - f.quantity);
        cash := cash + f.netCash;
        if p.quantity == 0.0 {
          p := p.(average := 0.0);
        }
      }
      assert p == HoldingAfter(Holding(old(View()), f.symbol), f);
      positions := positions[f.symbol := p];
      marks := marks[f.symbol := f.price];
      return true;
    }

    method RecordEquity(timestamp: int)
      modifies this
      ensures View() == Record(old(View()), timestamp)
    {
      var mv := TotalMarketValue();
      var un := UnrealizedPnl();
      curve := curve + [EquityPoint(timestamp, cash, mv, cash + mv, realized, un)];
    }
  }
}
