// Recovering realized profit from the fills alone: analytics/metrics.py.

module TradeReplay {
  import opened Trading
  import opened Ledger

  const RESET := 0.000000000001

  datatype Replay = Replay(averages: map<string, real>, quantities: map<string, real>, pnls: seq<real>)

  const NOTHING := Replay(map[], map[], [])

  function QuantityOf(r: Replay, s: string): real {
    if s in r.quantities then r.quantities[s] else 0.0
  }

  // What a sale made over its entry price, net of its cost.
  function NetGain(f: Fill, entry: real): real {
    (f.price - entry) * f.quantity - f.transactionCost
  }

  function ReplayFill(r: Replay, f: Fill): Replay
    requires ValidFill(f)
  {
    var held := QuantityOf(r, f.symbol);
    if f.side == Buy then
      var quantity := held + f.quantity;
      var entry := if f.symbol in r.averages then r.averages[f.symbol] else 0.0;
      var average := if held <= 0.0 then f.price else (Value(held, entry) + Value(f.quantity, f.price)) / quantity;
      r.(averages := r.averages[f.symbol := average], quantities := r.quantities[f.symbol := quantity])
    else
      var entry := if f.symbol in r.averages then r.averages[f.symbol] else f.price;
      var left := held - f.quantity;
      var r' := r.(pnls := r.pnls + [NetGain(f, entry)]);
      if left <= RESET then
        r'.(averages := r.averages[f.symbol := 0.0], quantities := r.quantities[f.symbol := 0.0])
      else r'.(quantities := r.quantities[f.symbol := left])
  }

  ghost predicate AllValid(fills: seq<Fill>) {
    forall i :: 0 <= i < |fills| ==> ValidFill(fills[i])
  }

  ghost function ReplayAll(r: Replay, fills: seq<Fill>): Replay
    requires AllValid(fills)
    decreases |fills|
  {
    if fills == [] then r else ReplayAll(ReplayFill(r, fills[0]), fills[1..])
  }

  // A symbol bought before has an average: what the dictionary lookup of the original relies on.
  ghost predicate Averaged(r: Replay) {
    forall s :: QuantityOf(r, s) > 0.0 ==> s in r.averages
  }

  lemma AveragedKept(r: Replay, f: Fill)
    requires Averaged(r) && ValidFill(f)
    ensures Averaged(ReplayFill(r, f))
  {
    hide Value, NetGain;
    forall s | QuantityOf(ReplayFill(r, f), s) > 0.0
      ensures s in ReplayFill(r, f).averages
    {
      if s != f.symbol {
        assert QuantityOf(ReplayFill(r, f), s) == QuantityOf(r, s);
      } else if f.side == Sell {
        assert QuantityOf(r, s) > 0.0;
      }
    }
  }

  // _trade_pnls
  method TradePnls(fills: seq<Fill>) returns (pnls: seq<real>)
    requires AllValid(fills)
    ensures pnls == ReplayAll(NOTHING, fills).pnls
  {
    hide Value, NetGain;
    ghost var all := ReplayAll(NOTHING, fills);
    var averages: map<string, real>, quantities: map<string, real> := map[], map[];
    pnls := [];
    for i := 0 to |fills|
      invariant Averaged(Replay(averages, quantities, pnls))
      invariant all == ReplayAll(Replay(averages, quantities, pnls), fills[i..])
    {
      var f := fills[i];
      assert fills[i..][0] == f && fills[i..][1..] == fills[i + 1..];
      var held := if f.symbol in quantities then quantities[f.symbol] else 0.0;
      ghost var r := Replay(averages, quantities, pnls);
      if f.side == Buy {
        if held <= 0.0 {
          averages := averages[f.symbol := f.price];
        } else {
          assert QuantityOf(r, f.symbol) > 0.0;
          var spent := Value(held, averages[f.symbol]) + Value(f.quantity, f.price);
          averages := averages[f.symbol := spent / (held + f.quantity)];
        }
        quantities := quantities[f.symbol := held + f.quantity];
      } else {
        var entry := if f.symbol in averages then averages[f.symbol] else f.price;
        pnls := pnls + [NetGain(f, entry)];
        quantities := quantities[f.symbol := held - f.quantity];
        if quantities[f.symbol] <= RESET {
          assert quantities[f.symbol := 0.0] == r.quantities[f.symbol := 0.0];
          quantities := quantities[f.symbol := 0.0];
          averages := averages[f.symbol := 0.0];
        }
      }
      assert Replay(averages, quantities, pnls) == ReplayFill(r, f);
      AveragedKept(r, f);
    }
    assert fills[|fills|..] == [];
  }

  // ---- against the ledger

  function Total(xs: seq<real>): real {
    if xs == [] then 0.0 else Total(xs[..|xs| - 1]) + xs[|xs| - 1]
  }

  function SellCosts(fills: seq<Fill>): real {
    if fills == [] then 0.0
    else
      var f := fills[|fills| - 1];
      SellCosts(fills[..|fills| - 1]) + (if f.side == Sell then f.transactionCost else 0.0)
  }

  ghost function Filled(b: Book, fills: seq<Fill>): Book
    decreases |fills|
  {
    if fills == [] then b else Filled(AfterFill(b, fills[0]), fills[1..])
  }

  // The ledger accepts every fill, and a sale leaves nothing or more than the replay's reset threshold.
  predicate Clean(b: Book, f: Fill) {
    && ValidFill(f) && !Refuses(b, f)
    && (f.side == Sell ==> Quantity(b, f.symbol) == f.quantity || Quantity(b, f.symbol) - f.quantity > RESET)
  }

  ghost predicate AllClean(b: Book, fills: seq<Fill>)
    decreases |fills|
  {
    fills == [] || (Clean(b, fills[0]) && AllClean(AfterFill(b, fills[0]), fills[1..]))
  }

  predicate SameHolding(p: Position, r: Replay, s: string) {
    && QuantityOf(r, s) == p.quantity && p.quantity >= 0.0
    && (p.quantity > 0.0 ==> s in r.averages && r.averages[s] == p.average)
  }

  // The replay knows every position and its average, and its profits are the ledger's net of the sale costs.
  ghost predicate Tracks(b: Book, r: Replay) {
    && (forall s :: SameHolding(Holding(b, s), r, s))
    && Total(r.pnls) == b.realized - SellCosts(b.fills)
  }

  lemma HoldingTracked(p: Position, r: Replay, f: Fill)
    requires SameHolding(p, r, f.symbol) && ValidFill(f)
    requires f.side == Sell ==> p.quantity == f.quantity || p.quantity - f.quantity > RESET
    ensures SameHolding(HoldingAfter(p, f), ReplayFill(r, f), f.symbol)
  {
    hide Value;
  }

  lemma FillTracked(b: Book, r: Replay, f: Fill)
    requires Tracks(b, r) && Clean(b, f)
    ensures Tracks(AfterFill(b, f), ReplayFill(r, f))
  {
    var b', r' := AfterFill(b, f), ReplayFill(r, f);
    HoldingsTracked(b, r, f);
    assert SameHolding(Holding(b, f.symbol), r, f.symbol);
    hide SameHolding, HoldingAfter, Value, SlippageOf;
    ProfitTracked(b, r, f);
  }

  lemma ProfitTracked(b: Book, r: Replay, f: Fill)
    requires SameHolding(Holding(b, f.symbol), r, f.symbol) && Clean(b, f)
    requires Total(r.pnls) == b.realized - SellCosts(b.fills)
    ensures Total(ReplayFill(r, f).pnls) == AfterFill(b, f).realized - SellCosts(AfterFill(b, f).fills)
  {
    var b', r' := AfterFill(b, f), ReplayFill(r, f);
    assert b'.fills == b.fills + [f] && b'.fills[..|b.fills|] == b.fills;
    hide Value, HoldingAfter, SlippageOf;
    if f.side == Sell {
      assert Quantity(b, f.symbol) > 0.0;
      assert NetGain(f, Holding(b, f.symbol).average) == GainOf(Holding(b, f.symbol), f) - f.transactionCost;
      hide NetGain, GainOf;
      assert r'.pnls == r.pnls + [NetGain(f, Holding(b, f.symbol).average)];
      assert r'.pnls[..|r.pnls|] == r.pnls;
    }
  }

  lemma HoldingsTracked(b: Book, r: Replay, f: Fill)
    requires (forall s :: SameHolding(Holding(b, s), r, s)) && Clean(b, f)
    ensures forall s :: SameHolding(Holding(AfterFill(b, f), s), ReplayFill(r, f), s)
  {
    var b', r' := AfterFill(b, f), ReplayFill(r, f);
    HoldingTracked(Holding(b, f.symbol), r, f);
    assert Holding(b', f.symbol) == HoldingAfter(Holding(b, f.symbol), f);
    forall s
      ensures SameHolding(Holding(b', s), r', s)
    {
      if s != f.symbol {
        assert SameHolding(Holding(b, s), r, s);
        Elsewhere(r, f, s);
        assert Holding(b', s) == Holding(b, s);
      }
      hide HoldingAfter, ReplayFill, Value, GainOf, SlippageOf;
    }
  }

  lemma Elsewhere(r: Replay, f: Fill, s: string)
    requires s != f.symbol && ValidFill(f)
    ensures var r' := ReplayFill(r, f);
            && QuantityOf(r', s) == QuantityOf(r, s) && (s in r'.averages <==> s in r.averages)
            && (s in r.averages ==> r'.averages[s] == r.averages[s])
  {
    hide Value;
  }

  lemma {:induction false} FillsTracked(b: Book, r: Replay, fills: seq<Fill>)
    requires Tracks(b, r) && AllClean(b, fills) && AllValid(fills)
    ensures Tracks(Filled(b, fills), ReplayAll(r, fills))
    decreases |fills|
  {
    if fills != [] {
      FillTracked(b, r, fills[0]);
      hide Tracks, AfterFill, ReplayFill, Clean;
      FillsTracked(AfterFill(b, fills[0]), ReplayFill(r, fills[0]), fills[1..]);
    }
  }

  // The replay recovers the ledger's realized profit net of sale costs whenever no sale leaves dust behind.
  lemma ReplayRecoversRealized(initial: real, fills: seq<Fill>)
    requires AllClean(Fresh(initial), fills) && AllValid(fills)
    ensures var b := Filled(Fresh(initial), fills);
            Total(ReplayAll(NOTHING, fills).pnls) == b.realized - SellCosts(b.fills)
  {
    FillsTracked(Fresh(initial), NOTHING, fills);
  }

  // ---- whole-number quantities

  predicate Whole(x: real) {
    x.Floor as real == x
  }

  ghost predicate WholeBook(b: Book) {
    forall s :: Whole(Quantity(b, s))
  }

  // The ledger accepts every fill, and every quantity is a whole number.
  ghost predicate WholeFills(b: Book, fills: seq<Fill>)
    decreases |fills|
  {
    fills == [] || (ValidFill(fills[0]) && Whole(fills[0].quantity) && !Refuses(b, fills[0])
                    && WholeFills(AfterFill(b, fills[0]), fills[1..]))
  }

  lemma WholeSum(x: real, y: real)
    requires Whole(x) && Whole(y)
    ensures Whole(x + y) && Whole(x - y) && (x <= y + EPS9 ==> x <= y) && (x < y ==> y - x >= 1.0)
  {
    var i, j := x.Floor, y.Floor;
    WholeInt(i + j);
    WholeInt(i - j);
    assert x + y == (i + j) as real && x - y == (i - j) as real && y - x == (j - i) as real;
    hide Whole;
  }

  lemma WholeInt(i: int)
    ensures Whole(i as real)
  {
  }

  lemma WholeStep(b: Book, f: Fill)
    requires WholeBook(b) && ValidFill(f) && Whole(f.quantity) && !Refuses(b, f)
    ensures Clean(b, f) && WholeBook(AfterFill(b, f))
  {
    var q := Quantity(b, f.symbol);
    assert Whole(q);
    WholeSum(q, f.quantity);
    WholeSum(f.quantity, q);
    hide Whole, Value, GainOf, SlippageOf;
    forall s
      ensures Whole(Quantity(AfterFill(b, f), s))
    {
      assert Whole(Quantity(b, s));
    }
  }

  lemma {:induction false} WholeFillsClean(b: Book, fills: seq<Fill>)
    requires WholeBook(b) && WholeFills(b, fills)
    ensures AllClean(b, fills) && AllValid(fills)
    decreases |fills|
  {
    if fills != [] {
      WholeStep(b, fills[0]);
      hide WholeBook, AfterFill, Clean, Refuses, Whole;
      WholeFillsClean(AfterFill(b, fills[0]), fills[1..]);
      assert fills == [fills[0]] + fills[1..];
    }
  }

  // With whole-number quantities, which the ledger then never lets oversell, the replay is always right.
  lemma WholeReplayRecoversRealized(initial: real, fills: seq<Fill>)
    requires WholeFills(Fresh(initial), fills)
    ensures AllValid(fills)
    ensures var b := Filled(Fresh(initial), fills);
            Total(ReplayAll(NOTHING, fills).pnls) == b.realized - SellCosts(b.fills)
  {
    assert forall s :: Quantity(Fresh(initial), s) == 0.0;
    WholeFillsClean(Fresh(initial), fills);
    ReplayRecoversRealized(initial, fills);
  }
}
