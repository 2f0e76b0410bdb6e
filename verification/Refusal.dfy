// A literal run that ends in a ledger refusal: lots below the tolerance make backtest/engine.py raise and
// paper/session.py halt at the same bar. The rates are the registered ones.

module Refusal {
  import opened Trading
  import opened Costs
  import opened Ledger
  import opened PaperOrders
  import opened PaperExecution
  import opened PaperSessions
  import opened Sums
  import opened Strategies
  import opened Simulation
  import opened Divergence
  import Risk
  import Backtest

  // ---- four flat bars, three lots

  const HAIR: real := 0.0000000005
  const SPECK: real := 0.0000000001

  const FLAT := [BarAt(0, 10.0), BarAt(1, 10.0), BarAt(2, 10.0), BarAt(3, 10.0)]
  const FLAT_EVENTS := [EventAt("a", 0, 10.0), EventAt("b", 1, 10.0), EventAt("c", 2, 10.0), EventAt("d", 3, 10.0)]
  const CFG := Paper(AllOrNothing, None)

  // Buy one share, sell it and a hair, buy a speck.
  function Lot(n: nat, symbol: string): Order {
    Order(Uuid(n), 0, symbol, if n == 1 then Sell else Buy,
          if n == 0 then 1.0 else if n == 1 then 1.0 + HAIR else SPECK, Market)
  }

  function Dusting(): Strategy {
    (cs: seq<Context>) =>
      if 1 <= |cs| <= 3 then Decision(BUY, [Lot(|cs| - 1, cs[|cs| - 1].symbol)]) else Decision(BUY, [])
  }

  // What the strategy answers to any contexts.
  ghost predicate DustAt(cs: seq<Context>) {
    var d := Dusting()(cs);
    && d.Decision? && |d.orders| <= 1 && d == Dusting()(Blanked(cs))
    && forall o :: o in d.orders ==>
         cs != [] && o.symbol == cs[|cs| - 1].symbol && o.quantity > 0.0 && o.orderType == Market
  }

  lemma DustsEach(cs: seq<Context>)
    ensures DustAt(cs)
  {
    if 1 <= |cs| <= 3 {
      assert Blanked(cs)[|cs| - 1].symbol == cs[|cs| - 1].symbol;
    }
  }

  lemma DustingFits()
    ensures Comparable(Dusting()) && NeverRaises(Dusting())
  {
    hide Dusting, Blanked;
    forall cs: seq<Context>
      ensures Dusting()(cs).Decision? && DustAt(cs)
    {
      DustsEach(cs);
    }
  }

  lemma FlatReplays()
    ensures Replays(CFG, FLAT_EVENTS, FLAT, "X", 0)
  {
    assert forall i :: 0 <= i < 4 ==> FLAT[i] == BarAt(i, 10.0);
    assert forall i :: 0 <= i < 4 ==> FLAT_EVENTS[i].bar == FLAT[i] && FLAT_EVENTS[i].seqNo == i;
    assert "a" != "b" && "a" != "c" && "a" != "d" && "b" != "c" && "b" != "d" && "c" != "d";
    assert !Blank("X") by {
      assert "X"[0] == 'X';
    }
  }

  lemma FlatMatched()
    ensures Matched(BT, CFG, FLAT)
  {
    ConfigFits(AllOrNothing, None);
    assert Value(100.0 + EPS9, 10.0) == 1000.0 + 10.0 * EPS9;
    assert forall i :: 0 <= i < 4 ==> FLAT[i].close == 10.0;
    hide Value, SellsCovered;
  }

  // ---- one bar at a time

  // n bars shown, h shares held, money enough.
  ghost predicate Stands(s: Backtest.State, n: nat, h: real) {
    && |s.shown| == n && Quantity(s.book, "X") == h && s.book.cash >= 950.0 && s.book.positions.Keys <= {"X"}
  }

  lemma FlatAt(i: nat)
    requires i < 4
    ensures |FLAT| == 4 && FLAT[i] == BarAt(i, 10.0)
  {
  }

  lemma LotExecuted(o: Order, id: Id, at: int)
    requires o.symbol == "X" && 0.0 < o.quantity <= 2.0
    ensures var f := Backtest.Execute(BT, o, id, at, 10.0);
            && f.Some? && f.value.quantity == o.quantity && f.value.side == o.side && f.value.symbol == "X"
            && f.value.netCash >= (if o.side == Buy then -21.0 else 0.0)
  {
    Delivered(o.side, o.quantity, 10.0);
    assert 0.0 < Value(o.quantity, 10.0) <= 20.0;
    assert BT.costs == EQUITY_DELIVERY && BT.bps == 0.0;
    hide Value, CostOf, Slip;
  }

  // The open of bar i.
  lemma LotFilled(i: nat, s: Backtest.State, o: Order, h: real)
    requires 0 < i < 4 && Stands(s, i, h) && s.book.cash >= 971.0 && s.pending == Some(Backtest.Scheduled(o, i - 1))
    requires o.symbol == "X" && 0.0 < o.quantity <= 2.0 && (o.side == Sell ==> o.quantity <= h + EPS9)
    ensures var r := Backtest.FillPending(BT, BarAt(i, 10.0), s);
            if o.side == Buy && o.quantity <= -h then r == Err(Backtest.ShortSale)
            else r.Ok? && r.value.pending == None && Stands(r.value, i, Risk.PositionAfter(o.side, o.quantity, h))
                 && r.value.book.cash >= s.book.cash - (if o.side == Buy then 21.0 else 0.0)
  {
    var id := Uuid(|s.book.fills|);
    LotExecuted(o, id, i);
    var f := Backtest.Execute(BT, o, id, i, 10.0).value;
    hide Backtest.Execute;
    LotTaken(s.book, f, h);
    hide AfterFill, Quantity;
  }

  lemma LotTaken(b: Book, f: Fill, h: real)
    requires Quantity(b, "X") == h && b.positions.Keys <= {"X"} && f.symbol == "X" && f.quantity > 0.0
    requires f.side == Sell ==> f.quantity <= h + EPS9
    ensures Refuses(b, f) <==> f.side == Buy && f.quantity <= -h
    ensures !Refuses(b, f) ==>
              var t := AfterFill(b, f);
              && Quantity(t, "X") == Risk.PositionAfter(f.side, f.quantity, h)
              && t.positions.Keys <= {"X"} && t.cash == b.cash + f.netCash
  {
    hide EntryOf, GainOf, SlippageOf, Value;
  }

  // What the book is worth at the close.
  lemma WorthAt(b: Book, h: real)
    requires Quantity(b, "X") == h && b.positions.Keys <= {"X"} && "X" in b.marks && b.marks["X"] == 10.0
    ensures MarketValue(b) == Value(h, 10.0)
  {
    var values := MarketValues(b);
    if "X" in b.positions {
      SumSplit(values, "X");
      assert values - {"X"} == map[];
    } else {
      assert values == map[] && Value(0.0, 10.0) == 0.0;
    }
  }

  lemma LotAccepted(o: Order, h: real)
    requires -1.0 <= h <= 5.0 && 0.0 < o.quantity <= 2.0 && (o.side == Sell ==> o.quantity <= h + EPS9)
    ensures Risk.CheckOrder(BT.risk, o, 10.0, h, Value(h, 10.0)) == None
  {
    assert BT.risk == Risk.RiskConfig(1000.0, 1000.0, 1000.0, false);
    var after := Risk.PositionAfter(o.side, o.quantity, h);
    assert Value(after, 10.0) <= 70.0 && Value(o.quantity, 10.0) <= 20.0;
    hide Value;
  }

  // The close of bar i.
  lemma LotPlaced(i: nat, s: Backtest.State, h: real)
    requires i < 3 && Stands(s, i, h) && s.pending == None && -1.0 <= h <= 5.0
    requires var o := Lot(i, "X"); o.side == Sell ==> o.quantity <= h + EPS9
    ensures |FLAT| == 4
    ensures var r := ClosedBar(BT, Dusting(), FLAT, i, s);
            && r.Ok? && Stands(r.value, i + 1, h) && r.value.book.cash == s.book.cash
            && r.value.pending == Some(Backtest.Scheduled(Lot(i, "X"), i))
  {
    FlatAt(i);
    FlatAt(i + 1);
    var o := Lot(i, "X");
    var seen := Backtest.Observe(Dusting(), FLAT, i, s);
    assert Backtest.NoFuture(FLAT[..i + 1], i) by {
      assert forall j :: 0 <= j <= i ==> FLAT[j].timestamp == j;
    }
    assert seen.Ok? && seen.value.1 == [o];
    WorthAt(seen.value.0.book, h);
    LotAccepted(o, h);
    hide Backtest.Observe, Risk.CheckOrder, MarketValue, PointOf, Dusting;
    var placed := Backtest.Place(BT, FLAT, i, seen.value.0, o);
    assert [o][1..] == [] && placed.Ok?;
    assert Backtest.PlaceAll(BT, FLAT, i, placed.value, []) == placed;
    assert Backtest.PlaceAll(BT, FLAT, i, seen.value.0, [o]) == placed;
  }

  lemma FirstLot()
    ensures |FLAT| == 4
    ensures var r := Backtest.Step(BT, Dusting(), FLAT, 0, Backtest.Start(BT));
            && r.Ok? && Stands(r.value, 1, 0.0) && r.value.book.cash == 1000.0
            && r.value.pending == Some(Backtest.Scheduled(Lot(0, "X"), 0))
  {
    FlatAt(0);
    var s := Backtest.Start(BT);
    assert Stands(s, 0, 0.0) && Backtest.FillPending(BT, FLAT[0], s) == Ok(s) && s.book.cash == 1000.0;
    hide ClosedBar, Stands, Dusting, Backtest.Step;
    LotPlaced(0, s, 0.0);
    BarShape(BT, Dusting(), FLAT, 0, s);
  }

  lemma NextLot(i: nat, s: Backtest.State, o: Order, h: real)
    requires 0 < i < 3 && Stands(s, i, h) && s.book.cash >= 971.0 && s.pending == Some(Backtest.Scheduled(o, i - 1))
    requires o.symbol == "X" && 0.0 < o.quantity <= 2.0 && (o.side == Sell ==> o.quantity <= h + EPS9)
    requires o.side == Buy ==> o.quantity > -h
    requires var after, next := Risk.PositionAfter(o.side, o.quantity, h), Lot(i, "X");
             -1.0 <= after <= 5.0 && (next.side == Sell ==> next.quantity <= after + EPS9)
    ensures |FLAT| == 4
    ensures var r := Backtest.Step(BT, Dusting(), FLAT, i, s);
            && r.Ok? && Stands(r.value, i + 1, Risk.PositionAfter(o.side, o.quantity, h))
            && r.value.book.cash >= s.book.cash - (if o.side == Buy then 21.0 else 0.0)
            && r.value.pending == Some(Backtest.Scheduled(Lot(i, "X"), i))
  {
    FlatAt(i);
    hide ClosedBar, Stands, Dusting, Backtest.Step, Backtest.FillPending;
    LotFilled(i, s, o, h);
    BarShape(BT, Dusting(), FLAT, i, s);
    LotPlaced(i, Backtest.FillPending(BT, FLAT[i], s).value, Risk.PositionAfter(o.side, o.quantity, h));
  }

  // The third order buys a fifth of what the book is short.
  lemma BacktestRefused()
    ensures |FLAT| == 4 && Backtest.After(BT, Dusting(), FLAT, 4) == Err(Backtest.ShortSale)
  {
    FlatAt(3);
    hide Backtest.Step, Stands, Dusting, Backtest.FillPending, BT, FLAT, ClosedBar;
    FirstLot();
    var s1 := Backtest.Step(BT, Dusting(), FLAT, 0, Backtest.Start(BT)).value;
    NextLot(1, s1, Lot(0, "X"), 0.0);
    var s2 := Backtest.Step(BT, Dusting(), FLAT, 1, s1).value;
    NextLot(2, s2, Lot(1, "X"), 1.0);
    var s3 := Backtest.Step(BT, Dusting(), FLAT, 2, s2).value;
    LotFilled(3, s3, Lot(2, "X"), -HAIR);
    BarShape(BT, Dusting(), FLAT, 3, s3);
    assert Backtest.After(BT, Dusting(), FLAT, 0) == Ok(Backtest.Start(BT));
    assert Backtest.After(BT, Dusting(), FLAT, 1) == Ok(s1);
    assert Backtest.After(BT, Dusting(), FLAT, 2) == Ok(s2);
    assert Backtest.After(BT, Dusting(), FLAT, 3) == Ok(s3);
  }

  // Lots of the size of the tolerance: the backtest raises at its fourth bar, so RunFailsIff is not vacuous, and the
  // paper session over the same bars halts on the ledger's refusal.
  lemma SpecksAreRefused()
    ensures Comparable(Dusting()) && NeverRaises(Dusting())
    ensures Matched(BT, CFG, FLAT) && Replays(CFG, FLAT_EVENTS, FLAT, "X", 0)
    ensures Backtest.RunResult(BT, Dusting(), FLAT) == Err(Backtest.ShortSale)
    ensures Run(CFG, Dusting(), Opened(CFG), Ticks(FLAT_EVENTS)).halt == Some(LedgerRefused)
  {
    assert |FLAT_EVENTS| == |FLAT| == 4 && FLAT_EVENTS[..4] == FLAT_EVENTS && Backtest.Chronological(FLAT);
    assert Backtest.RunResult(BT, Dusting(), FLAT) == Backtest.After(BT, Dusting(), FLAT, 4);
    assert SameFailure(Backtest.ShortSale, Run(CFG, Dusting(), Opened(CFG), Ticks(FLAT_EVENTS)).halt) ==>
             Run(CFG, Dusting(), Opened(CFG), Ticks(FLAT_EVENTS)).halt == Some(LedgerRefused);
    hide *;
    DustingFits();
    FlatMatched();
    FlatReplays();
    BacktestRefused();
    EnginesAgree(BT, CFG, Dusting(), FLAT_EVENTS, FLAT, "X", 0, 4);
  }
}
