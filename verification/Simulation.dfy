// The backtest loop and the paper session agree bar by bar: phase13/drift.py claims it, the two engines are
// backtest/engine.py and paper/session.py.

module Simulation {
  import opened Trading
  import opened Costs
  import opened Ledger
  import opened Sums
  import opened PaperOrders
  import opened MarketData
  import opened PaperRisk
  import opened PaperExecution
  import opened PaperBooks
  import opened PaperSessions
  import opened PaperAttempts
  import opened WholeFills
  import opened PaperLifecycle
  import opened PaperMoney
  import opened Strategies
  import Risk
  import Backtest
  import BacktestProofs

  // ---- the hypotheses

  // The same bars as consecutive, admissible events.
  ghost predicate Replays(cfg: Config, es: seq<Event>, bars: seq<Bar>, symbol: string, first: nat) {
    && |es| == |bars| && BacktestProofs.SingleSymbol(bars, symbol) && Increasing(bars) && !Blank(symbol)
    && (forall i :: 0 <= i < |es| ==> es[i].bar == bars[i] && es[i].seqNo == first + i)
    && (forall i, j :: 0 <= i < j < |es| ==> es[i].id != es[j].id)
    && (forall i :: 0 <= i < |es| ==> !ClosedDay(cfg.feed, es[i]) && (cfg.feed.requireKnown ==> Known(cfg.feed, es[i])))
  }

  // The ceilings only the paper session has are off, or out of reach of one order a bar that passes the order ceiling,
  // of losing everything, and of the value ceiling at the bars' closes.
  ghost predicate NeverBind(risk: PaperRiskConfig, initialCash: real, bars: seq<Bar>) {
    && (risk.maxOrderCount.Some? ==> risk.maxOrderCount.value >= |bars|)
    && (risk.maxTurnover.Some? ==> Value(|bars| as real, risk.maxOrderNotional + EPS9) <= risk.maxTurnover.value + EPS9)
    && forall i :: 0 <= i < |bars| ==>
         && (risk.maxDailyLoss.Some? ==> initialCash + Value(EPS9, bars[i].close) <= risk.maxDailyLoss.value)
         && Value(risk.maxPositionQuantity + EPS9, bars[i].close) >= risk.maxPositionNotional + EPS9
  }

  // Same money, same costs and slippage, orders filled whole, and one shared risk verdict.
  ghost predicate Matched(bt: Backtest.Config, cfg: Config, bars: seq<Bar>) {
    && ValidConfig(cfg) && SellsCovered(cfg.exec.costs) && FillsWhole(cfg)
    && bt.initialCash == cfg.initialCash && bt.costs == cfg.exec.costs && bt.bps == cfg.exec.bps
    && bt.risk == CoreConfig(cfg.risk) && NeverBind(cfg.risk, cfg.initialCash, bars)
  }

  // The only difference between the contexts of the two engines is the membership field.
  function Blanked(cs: seq<Context>): seq<Context> {
    seq(|cs|, i requires 0 <= i < |cs| => cs[i].(membership := None))
  }

  ghost predicate IgnoresMembership(strategy: Strategy) {
    forall cs: seq<Context> :: strategy(cs) == strategy(Blanked(cs))
  }

  ghost predicate Comparable(strategy: Strategy) {
    AtMostOneOrder(strategy) && TradesContextSymbol(strategy) && PositiveLots(strategy)
    && MarketOrdersOnly(strategy) && IgnoresMembership(strategy)
  }

  // ---- the relation

  ghost predicate SameBook(a: Book, b: Book) {
    && a.cash == b.cash && a.positions == b.positions && a.realized == b.realized && a.costs == b.costs
    && a.slippage == b.slippage && a.marks == b.marks && a.curve == b.curve && SameTrades(a.fills, b.fills)
  }

  ghost predicate SameFeed(cfg: Config, es: seq<Event>, k: nat, symbol: string, w: Watermarks)
    requires k <= |es|
  {
    && Consistent(w)
    && (forall id :: id in w.seenIds ==> exists i :: 0 <= i < k && es[i].id == id)
    && (k == 0 ==> w.lastSeq == None && w.lastTs == map[])
    && (k > 0 ==> w.lastSeq == Some(es[k - 1].seqNo) && w.lastTs == map[symbol := es[k - 1].bar.timestamp])
  }

  // The pending slot and the pending queue hold the same order.
  predicate SamePending(symbol: string, seqNo: int, pending: Option<Backtest.Scheduled>, intents: seq<Intent>,
                        queue: seq<nat>) {
    if pending == None then queue == []
    else
      && |queue| == 1 && queue[0] < |intents|
      && var i := intents[queue[0]];
         (&& i.status == Accepted && i.filled == 0.0 && i.scheduled == Some(seqNo)
          && i.order == pending.value.order.(id := i.order.id)
          && i.order.symbol == symbol && i.order.quantity > 0.0)
  }

  // The pending order is for the symbol, and a sale is covered within the tolerance.
  predicate Covered(symbol: string, b: Backtest.State) {
    b.pending.Some? ==>
      var o := b.pending.value.order;
      o.symbol == symbol && o.quantity > 0.0 && (o.side == Sell ==> o.quantity <= Quantity(b.book, symbol) + EPS9)
  }

  // The failures a comparable run can meet, and the halts they correspond to.
  predicate SameFailure(f: Backtest.Failure, halt: Option<Halt>) {
    match f
    case ShortSale => halt == Some(LedgerRefused)
    case InvalidFill => halt == Some(Exception(Fault.InvalidFill))
    case StrategyFailed => halt == Some(Exception(Fault.StrategyFailed))
    case _ => false
  }

  // What k closes may have charged.
  predicate Loaded(cfg: Config, k: nat, u: Usage) {
    && u.orderCount <= k && u.turnover <= Value(u.orderCount as real, cfg.risk.maxOrderNotional + EPS9)
    && u.dayStart == Some(cfg.initialCash)
  }

  ghost predicate Related(cfg: Config, es: seq<Event>, bars: seq<Bar>, symbol: string, k: nat,
                          b: Backtest.State, s: Session)
    requires k <= |es| == |bars|
  {
    && s.started && !s.stopped && s.halt == None && !s.kill.triggered
    && SameBook(b.book, s.book.book) && s.book.book.fills == s.fills
    && b.shown == Blanked(s.shown)
    && SameFeed(cfg, es, k, symbol, s.feed)
    && HistoryOf(s, symbol) == bars[..k]
    && (k < |bars| ==>
          && SamePending(symbol, es[k].seqNo, b.pending, s.intents, s.pending)
          && (b.pending.Some? ==> b.pending.value.signalTs < bars[k].timestamp)
          && Covered(symbol, b))
    && NoDebt(b.book) && b.book.positions.Keys <= {symbol} && Loaded(cfg, k, s.usage)
  }

  lemma SameTradesAppend(fs: seq<Fill>, gs: seq<Fill>, f: Fill, g: Fill)
    requires SameTrades(fs, gs) && SameTrade(f, g)
    ensures SameTrades(fs + [f], gs + [g])
  {
  }

  // Books that agree keep agreeing under the same trade.
  lemma SameBookAfterFill(a: Book, b: Book, f: Fill, g: Fill)
    requires SameBook(a, b) && SameTrade(f, g)
    ensures SameBook(AfterFill(a, f), AfterFill(b, g)) && (Refuses(a, f) <==> Refuses(b, g))
  {
    SameTradesAppend(a.fills, b.fills, f, g);
    hide EntryOf, SameTrades, Value;
    assert Refuses(a, f) || HoldingAfter(Holding(a, f.symbol), f) == HoldingAfter(Holding(b, g.symbol), g);
  }

  lemma SameBookValues(a: Book, b: Book)
    requires SameBook(a, b)
    ensures MarketValue(a) == MarketValue(b) && Unrealized(a) == Unrealized(b) && Equity(a) == Equity(b)
    ensures forall s :: Quantity(a, s) == Quantity(b, s)
  {
    hide Value;
    forall s | s in a.positions
      ensures ValueOf(a, s) == ValueOf(b, s) && UnrealizedOf(a, s) == UnrealizedOf(b, s)
    {
      assert Holding(a, s) == Holding(b, s) && MarkOf(a, s) == MarkOf(b, s);
    }
    assert MarketValues(a) == MarketValues(b);
    assert Unrealizeds(a) == Unrealizeds(b);
  }

  // ---- one fill, two factories

  // Both factories build the same trade from the same order.
  lemma SameFactories(bt: Backtest.Config, cfg: ExecConfig, o: Order, i: Intent, id: Id, fillSeq: nat, at: int,
                      open: real)
    requires bt.costs == cfg.costs && bt.bps == cfg.bps && open > 0.0
    requires i.order == o.(id := i.order.id)
    ensures var f := ProposedFill(cfg, fillSeq, i, o.quantity, at, open);
            var r := Backtest.Execute(bt, o, id, at, open);
            && (r.Some? <==> ValidFill(f))
            && (r.Some? ==> SameTrade(r.value, f))
  {
    hide Slip, CostOf, Value, Fixed8;
  }

  // The two cash checks are the same check.
  lemma SameCashCheck(bt: Backtest.Config, cfg: ExecConfig, o: Order, i: Intent, id: Id, at: int, open: real,
                      book: Book)
    requires bt.costs == cfg.costs && bt.bps == cfg.bps && open > 0.0 && bt.bps >= 0.0 && SellsCovered(cfg.costs)
    requires i.order == o.(id := i.order.id) && o.quantity > 0.0
    requires o.side == Sell ==> o.quantity <= Quantity(book, o.symbol) + EPS9
    requires NonNegativeRates(cfg.costs) || book.cash >= -EPS9
    ensures var against := Obstacle(cfg, i, o.quantity, open, book.cash, Quantity(book, o.symbol), false, false);
            var r := Backtest.Execute(bt, o, id, at, open);
            && (r.Some? ==> (Backtest.Unaffordable(book, r.value) <==> against.Some?))
            && (r == None ==> against == None)
  {
    SlipPositive(bt.bps, o.side, open);
    var price := Slip(bt.bps, o.side, open).price;
    if price > 0.0 {
      if NonNegativeRates(cfg.costs) {
        CostNonNegative(cfg.costs, o.side, o.quantity, price);
      }
      ValuePositive(o.quantity, price);
      if o.side == Sell {
        SellCostAtMostProceeds(cfg.costs, o.quantity, price);
      }
    }
    hide Slip, CostOf, Value;
  }

  // ---- phase 1: the event is admitted

  lemma AdmitReplays(cfg: Config, es: seq<Event>, bars: seq<Bar>, symbol: string, first: nat, k: nat, s: Session)
    requires Replays(cfg, es, bars, symbol, first) && k < |es| && s.halt == None
    requires SameFeed(cfg, es, k, symbol, s.feed)
    requires ValidConfig(cfg)
    ensures var t := Admit(cfg, s, es[k]);
            t == s.(feed := t.feed) && SameFeed(cfg, es, k + 1, symbol, t.feed)
  {
    var e := es[k];
    assert ValidEvent(e);
    assert k > 0 ==> es[k - 1].bar == bars[k - 1] && bars[k - 1].timestamp < bars[k].timestamp;
    assert e.id !in s.feed.seenIds;
    AcceptedIff(cfg.feed, s.feed, e);
    hide Issues, Consistent, ValidConfig;
    assert Issues(cfg.feed, s.feed, e) == [];
    var w := Commit(s.feed, e);
    forall id | id in w.seenIds
      ensures exists i :: 0 <= i < k + 1 && es[i].id == id
    {
      if id == e.id {
        assert es[k].id == id;
      }
    }
  }

  // ---- phase 2: the pending order meets the open

  // What is left after phase 2.
  ghost predicate Filled2(b: Backtest.State, b': Backtest.State, s: Session, s': Session) {
    && b'.pending == None && b'.shown == b.shown && b'.signals == b.signals
    && SameBook(b'.book, s'.book.book) && s'.book.book.fills == s'.fills && NoDebt(b'.book)
    && s'.halt == None && s'.pending == []
    && s'.shown == s.shown && s'.history == s.history && s'.feed == s.feed && s'.kill == s.kill
    && s'.started == s.started && s'.stopped == s.stopped && s'.usage == s.usage
  }

  // The paper attempt and the backtest execution take corresponding branches.
  lemma BranchesAgree(bt: Backtest.Config, cfg: ExecConfig, v: Venue, i: Intent, o: Order, id: Id, at: int, open: real,
                      book: Book)
    requires bt.costs == cfg.costs && bt.bps == cfg.bps && open > 0.0 && bt.bps >= 0.0 && SellsCovered(cfg.costs)
    requires cfg.policy == AllOrNothing && 0.0 < cfg.ratio <= 1.0
    requires WellFormed(cfg, i) && i.status == Accepted && VenueOk(v)
    requires i.order == o.(id := i.order.id)
    requires o.side == Sell ==> o.quantity <= Quantity(book, o.symbol) + EPS9
    requires NonNegativeRates(cfg.costs) || book.cash >= -EPS9
    ensures var r := Backtest.Execute(bt, o, id, at, open);
            var a := ExecuteAtOpen(cfg, v, i, at, open, book.cash, Quantity(book, o.symbol), false, false);
            && (r == None <==> a.outcome == Threw(InvalidFill))
            && (r.Some? ==> if Backtest.Unaffordable(book, r.value) then a.outcome.Dropped?
                            else a.outcome.FilledWith? && SameTrade(r.value, a.outcome.fill))
  {
    OpenRemains(cfg, i);
    var f := ProposedFill(cfg, v.fillSeq + 1, i, o.quantity, at, open);
    Attempted(cfg, v, i, at, open, book.cash, Quantity(book, o.symbol), false);
    SameFactories(bt, cfg, o, i, id, v.fillSeq + 1, at, open);
    SameCashCheck(bt, cfg, o, i, id, at, open, book);
    assert NextQuantity(cfg, i) == o.quantity;
    hide ExecuteAtOpen, Obstacle, ProposedFill, NextQuantity, Backtest.Execute, Backtest.Unaffordable, Quantity;
    hide WellFormed, VenueOk, ValidFill, SellsCovered;
  }

  // The venue's next fill has an id the book has not seen.
  lemma FreshFill(cfg: Config, s: Session, e: Event, k: nat)
    requires ValidConfig(cfg) && Life(cfg, s) && Money(cfg, s) && s.halt == None
    requires k < |s.intents| && Open(s.intents[k])
    ensures var a := AttemptAt(cfg, s, e, k); a.outcome.FilledWith? ==> a.outcome.fill.id !in s.book.applied
  {
    IntentWellFormed(cfg, s, k);
    AttemptedShape(cfg.exec, s.venue, s.intents[k], e.bar.timestamp, e.bar.open, s.book.book.cash,
                   Quantity(s.book.book, e.bar.symbol), Closed(cfg, e));
    var a := AttemptAt(cfg, s, e, k);
    hide ExecuteAtOpen, WellFormed, ValidFill, BalancedFill, NoDebt, AllPositive, Balance, NotesOk, SumsOk, OnceOk;
    if a.outcome.FilledWith? {
      FreshId(s.fills, s.venue.fillSeq, a.outcome.fill);
    }
  }

  lemma OneBranches(bt: Backtest.Config, cfg: Config, bars: seq<Bar>, symbol: string, e: Event,
                    b: Backtest.State, s: Session)
    requires Matched(bt, cfg, bars) && cfg.exec.policy == AllOrNothing
    requires Alive(cfg, s) && Kept(cfg, s, false)
    requires s.halt == None && e.bar.symbol == symbol && ValidBar(e.bar) && !ClosedDay(cfg.feed, e)
    requires SameBook(b.book, s.book.book) && s.book.book.fills == s.fills && NoDebt(b.book)
    requires b.pending.Some? && b.pending.value.signalTs < e.bar.timestamp
    requires SamePending(symbol, e.seqNo, b.pending, s.intents, s.pending)
    requires Covered(symbol, b)
    ensures var k, o := s.pending[0], b.pending.value.order;
            var a := AttemptAt(cfg, s, e, k);
            var r := Backtest.Execute(bt, o, Uuid(|b.book.fills|), e.bar.timestamp, e.bar.open);
            && (r == None <==> a.outcome == Threw(InvalidFill))
            && (r.Some? ==> if Backtest.Unaffordable(b.book, r.value) then a.outcome.Dropped?
                            else a.outcome.FilledWith? && SameTrade(r.value, a.outcome.fill))
            && a.intent.status != PartiallyFilled && (a.outcome.FilledWith? ==> a.outcome.fill.id !in s.book.applied)
  {
    var k := s.pending[0];
    var o := b.pending.value.order;
    var book := s.book.book;
    var id := Uuid(|b.book.fills|);
    SameBookValues(b.book, book);
    IntentWellFormed(cfg, s, k);
    BranchesAgree(bt, cfg.exec, s.venue, s.intents[k], o, id, e.bar.timestamp, e.bar.open, book);
    AttemptAtShape(cfg, s, e, k);
    ExecuteOneShape(cfg, s, e, k);
    FreshFill(cfg, s, e, k);
    var a := AttemptAt(cfg, s, e, k);
    assert a == ExecuteAtOpen(cfg.exec, s.venue, s.intents[k], e.bar.timestamp, e.bar.open, book.cash,
                              Quantity(book, o.symbol), false, false);
    assert !Terminal(PartiallyFilled) && a.intent.status != PartiallyFilled;
    hide ExecuteAtOpen, Backtest.Execute, AttemptAt, ExecuteOne, Alive, Kept, Matched, ValidFill, WellFormed, VenueOk;
  }

  lemma OneAgrees(bt: Backtest.Config, cfg: Config, bars: seq<Bar>, symbol: string, e: Event,
                  b: Backtest.State, s: Session)
    requires Matched(bt, cfg, bars) && cfg.exec.policy == AllOrNothing
    requires Alive(cfg, s) && Kept(cfg, s, false)
    requires s.halt == None && e.bar.symbol == symbol && ValidBar(e.bar) && !ClosedDay(cfg.feed, e)
    requires SameBook(b.book, s.book.book) && s.book.book.fills == s.fills && NoDebt(b.book)
    requires b.pending.Some? && b.pending.value.signalTs < e.bar.timestamp
    requires SamePending(symbol, e.seqNo, b.pending, s.intents, s.pending)
    requires Covered(symbol, b)
    ensures var r := Backtest.FillPending(bt, e.bar, b);
            var s' := ExecuteOne(cfg, s, e, s.pending[0]);
            if r.Err? then SameFailure(r.error, s'.halt)
            else Filled2(b, r.value, s, s'.(pending := [])) && s'.intents[s.pending[0]].status != PartiallyFilled
  {
    var k, o := s.pending[0], b.pending.value.order;
    OneBranches(bt, cfg, bars, symbol, e, b, s);
    ExecuteOneShape(cfg, s, e, k);
    var a, s' := AttemptAt(cfg, s, e, k), ExecuteOne(cfg, s, e, k);
    var r := Backtest.Execute(bt, o, Uuid(|b.book.fills|), e.bar.timestamp, e.bar.open);
    assert SameRest(s, s') && !s.kill.triggered == !s'.kill.triggered;
    assert k < |s.intents| && s'.intents[k].status == a.intent.status;
    hide *;
    FillShape(bt, e.bar, b);
    if a.outcome.FilledWith? {
      FilledAgrees(symbol, b, s, s', r.value, a.outcome.fill);
      FillLeaves(b, s, s', r.value);
    } else if a.outcome.Dropped? {
      DropLeaves(b, s, s', e.bar.timestamp);
    } else {
      ThrownAlike(s'.halt);
    }
  }

  predicate SameRest(s: Session, s': Session) {
    && s'.shown == s.shown && s'.history == s.history && s'.feed == s.feed && s'.kill == s.kill
    && s'.started == s.started && s'.stopped == s.stopped && s'.usage == s.usage
  }

  // The four ways of FillPending.
  lemma FillShape(bt: Backtest.Config, bar: Bar, b: Backtest.State)
    requires b.pending.Some? && b.pending.value.signalTs < bar.timestamp
    ensures var r := Backtest.Execute(bt, b.pending.value.order, Uuid(|b.book.fills|), bar.timestamp, bar.open);
            Backtest.FillPending(bt, bar, b) ==
            if r == None then Err(Backtest.InvalidFill)
            else if Backtest.Unaffordable(b.book, r.value) then Ok(CancelledState(b, bar.timestamp))
            else if Refuses(b.book, r.value) then Err(Backtest.ShortSale)
            else Ok(FilledState(b, r.value))
  {
    hide Backtest.Execute, Backtest.Unaffordable, Refuses, AfterFill;
  }

  function CancelledState(b: Backtest.State, ts: int): Backtest.State
    requires b.pending.Some?
  {
    b.(pending := None,
       log := b.log + [Backtest.CancelledLogged(ts, b.pending.value.order, "insufficient_cash_at_fill")])
  }

  function FilledState(b: Backtest.State, f: Fill): Backtest.State {
    b.(pending := None, book := AfterFill(b.book, f), log := b.log + [Backtest.FillLogged(f)])
  }

  lemma FillLeaves(b: Backtest.State, s: Session, s': Session, f: Fill)
    requires s'.halt == (if Refuses(b.book, f) then Some(LedgerRefused) else None) && SameRest(s, s')
    requires Refuses(b.book, f) || (
               && SameBook(AfterFill(b.book, f), s'.book.book) && s'.book.book.fills == s'.fills
               && NoDebt(AfterFill(b.book, f)))
    ensures if Refuses(b.book, f) then SameFailure(Backtest.ShortSale, s'.halt)
            else Filled2(b, FilledState(b, f), s, s'.(pending := []))
  {
    hide Refuses, SameBook, NoDebt, AfterFill;
  }

  lemma DropLeaves(b: Backtest.State, s: Session, s': Session, ts: int)
    requires b.pending.Some? && s'.halt == None && SameRest(s, s') && s'.book == s.book && s'.fills == s.fills
    requires SameBook(b.book, s.book.book) && s.book.book.fills == s.fills && NoDebt(b.book)
    ensures Filled2(b, CancelledState(b, ts), s, s'.(pending := []))
  {
    hide SameBook, NoDebt;
  }

  lemma ThrownAlike(halt: Option<Halt>)
    ensures halt == Some(Exception(Fault.InvalidFill)) ==> SameFailure(Backtest.InvalidFill, halt)
  {
  }

  lemma FilledAgrees(symbol: string, b: Backtest.State, s: Session, s': Session, f: Fill, g: Fill)
    requires SameBook(b.book, s.book.book) && s.book.book.fills == s.fills && NoDebt(b.book)
    requires SameTrade(f, g) && !Backtest.Unaffordable(b.book, f) && g.id !in s.book.applied
    requires s'.book == Applied(s.book, g) && s'.fills == s.fills + [g]
    ensures Refuses(b.book, f) <==> CannotApply(s.book, g)
    ensures Refuses(b.book, f) || (
              && SameBook(AfterFill(b.book, f), s'.book.book) && s'.book.book.fills == s'.fills
              && NoDebt(AfterFill(b.book, f)))
  {
    SameBookAfterFill(b.book, s.book.book, f, g);
    if !Refuses(b.book, f) {
      NoDebtAfter(b.book, f);
      AppliedQuantity(s.book, g, symbol);
    }
    hide Refuses, Applied, HoldingAfter, SameBook, NoDebt;
  }

  lemma NoDebtAfter(b: Book, f: Fill)
    requires NoDebt(b) && !Backtest.Unaffordable(b, f) && !Refuses(b, f)
    ensures NoDebt(AfterFill(b, f))
  {
    hide EntryOf, GainOf, SlippageOf, Value;
    var b' := AfterFill(b, f);
    forall s
      ensures Quantity(b', s) >= -EPS9
    {
      if s != f.symbol {
        assert Quantity(b', s) == Quantity(b, s);
      }
    }
    assert b'.cash == b.cash + f.netCash;
  }

  // A queue of one due order that one attempt settles.
  lemma OnlyOneQueued(cfg: Config, s: Session, e: Event, k: nat)
    requires k < |s.intents| && s.pending == [k] && s.halt == None && Due(s.intents[k], e)
    ensures var s' := ExecuteOne(cfg, s, e, k);
            && (s'.halt.Some? ==> ExecutePending(cfg, s, e) == s')
            && (s'.halt == None && s'.intents[k].status != PartiallyFilled ==>
                  ExecutePending(cfg, s, e) == s'.(pending := []))
  {
    QueueStep(cfg, s, e, [k], []);
    assert [k][1..] == [];
    hide ExecuteOne, Due;
  }

  lemma FailureHalts(r: Result<Backtest.State, Backtest.Failure>, halt: Option<Halt>)
    ensures r.Err? && SameFailure(r.error, halt) ==> halt.Some?
  {
  }

  lemma FilledRuns(b: Backtest.State, b': Backtest.State, s: Session, s': Session)
    requires Filled2(b, b', s, s')
    ensures s'.halt == None
  {
  }

  lemma PendingAgrees(bt: Backtest.Config, cfg: Config, bars: seq<Bar>, symbol: string, e: Event,
                      b: Backtest.State, s: Session)
    requires Matched(bt, cfg, bars) && cfg.exec.policy == AllOrNothing
    requires Alive(cfg, s) && Kept(cfg, s, false)
    requires s.halt == None && e.bar.symbol == symbol && ValidBar(e.bar) && !ClosedDay(cfg.feed, e)
    requires SameBook(b.book, s.book.book) && s.book.book.fills == s.fills && NoDebt(b.book)
    requires b.pending.Some? ==> b.pending.value.signalTs < e.bar.timestamp
    requires SamePending(symbol, e.seqNo, b.pending, s.intents, s.pending)
    requires Covered(symbol, b)
    ensures var r := Backtest.FillPending(bt, e.bar, b);
            var s' := ExecutePending(cfg, s, e);
            if r.Err? then SameFailure(r.error, s'.halt) else Filled2(b, r.value, s, s')
  {
    if b.pending.Some? {
      var k := s.pending[0];
      assert s.pending == [k] && Due(s.intents[k], e);
      OneAgrees(bt, cfg, bars, symbol, e, b, s);
      hide *;
      OnlyOneQueued(cfg, s, e, k);
      FailureHalts(Backtest.FillPending(bt, e.bar, b), ExecuteOne(cfg, s, e, k).halt);
      if Backtest.FillPending(bt, e.bar, b).Ok? {
        FilledRuns(b, Backtest.FillPending(bt, e.bar, b).value, s, ExecuteOne(cfg, s, e, k).(pending := []));
      }
    } else {
      assert ExecuteQueue(cfg, s, e, [], []) == (s, []);
      hide Alive, Kept, Matched, SameBook, NoDebt;
    }
  }

  // ---- phase 3: the close is shown to the strategy

  lemma SameBookMarked(a: Book, b: Book, symbol: string, price: real)
    requires SameBook(a, b) && NoDebt(a)
    ensures SameBook(SetMark(a, symbol, price), SetMark(b, symbol, price)) && NoDebt(SetMark(a, symbol, price))
  {
    assert forall s :: Quantity(SetMark(a, symbol, price), s) == Quantity(a, s);
  }

  lemma ObserveAgrees(strategy: Strategy, bars: seq<Bar>, symbol: string, e: Event, k: nat,
                      b: Backtest.State, s: Session)
    requires k < |bars| && Increasing(bars) && e.bar == bars[k] && e.bar.symbol == symbol
    requires SameBook(b.book, s.book.book) && s.book.book.fills == s.fills && NoDebt(b.book)
    requires b.shown == Blanked(s.shown) && HistoryOf(s, symbol) == bars[..k] && IgnoresMembership(strategy)
    ensures var s' := Observed(s, e);
            var r := Backtest.Observe(strategy, bars, k, b);
            && HistoryOf(s', symbol) == bars[..k + 1]
            && s'.shown != [] && s'.shown[|s'.shown| - 1].symbol == symbol
            && (r.Err? <==> strategy(s'.shown).Raises?) && (r.Err? ==> r.error == Backtest.StrategyFailed)
            && (r.Ok? ==>
                  && strategy(s'.shown) == Decision(r.value.0.signals[|b.signals|], r.value.1)
                  && r.value.0.signals == b.signals + [strategy(s'.shown).signal]
                  && r.value.0.shown == Blanked(s'.shown) && r.value.0.pending == b.pending
                  && SameBook(r.value.0.book, s'.book.book) && s'.book.book.fills == s'.fills && NoDebt(r.value.0.book))
  {
    SameBookMarked(b.book, s.book.book, symbol, e.bar.close);
    var book := SetMark(b.book, symbol, e.bar.close);
    SameBookValues(book, SetMark(s.book.book, symbol, e.bar.close));
    assert bars[..k] + [bars[k]] == bars[..k + 1];
    var s' := Observed(s, e);
    var shown := b.shown + [Backtest.ContextAt(bars, k, book)];
    assert s'.shown[|s.shown|].(membership := None) == Backtest.ContextAt(bars, k, book);
    assert shown == Blanked(s'.shown);
    assert Backtest.NoFuture(bars[..k + 1], bars[k].timestamp);
    assert strategy(shown) == strategy(s'.shown);
    hide SameBook, NoDebt, Blanked, Quantity, MarketValue, Unrealized, Equity, IgnoresMembership, Increasing;
  }

  // ---- phase 4: the verdict and the next pending order

  lemma VerdictsAgree(bt: Backtest.Config, cfg: Config, bars: seq<Bar>, k: nat, u: Usage, o: Order, o': Order,
                      position: real, exposure: real, equity: real)
    requires Matched(bt, cfg, bars) && k < |bars| && ValidBar(bars[k]) && o' == o.(id := o'.id) && o.quantity > 0.0
    requires Loaded(cfg, k, u) && equity >= -EPS9 - Value(EPS9, bars[k].close)
    ensures var verdict := Screen(cfg.risk, u, false, o', bars[k].close, position, exposure, equity);
            && (verdict == None <==> Risk.CheckOrder(bt.risk, o, bars[k].close, position, exposure) == None)
            && (verdict == None ==> Loaded(cfg, k + 1, Charged(u, o'.quantity, bars[k].close)))
  {
    var close := bars[k].close;
    var after := Risk.PositionAfter(o.side, o.quantity, position);
    var ceiling := cfg.risk.maxPositionQuantity + EPS9;
    assert Value(ceiling, close) >= cfg.risk.maxPositionNotional + EPS9;
    if after > ceiling {
      LargerValue(after, ceiling, close);
    }
    ValuePositive(o.quantity, close);
    var cap := cfg.risk.maxOrderNotional + EPS9;
    if Value(o.quantity, close) <= cap {
      OneMore(u.orderCount, |bars|, cap);
    }
    hide Value, SellsCovered, ValidConfig, Risk.PositionAfter, FillsWhole;
  }

  lemma OneMore(n: nat, bars: nat, cap: real)
    requires n < bars && cap > 0.0
    ensures Value((n + 1) as real, cap) == Value(n as real, cap) + cap <= Value(bars as real, cap)
  {
    assert (bars - n - 1) as real * cap >= 0.0;
  }

  // What a book without debt in one symbol is worth at the least.
  lemma EquityFloor(b: Book, symbol: string, price: real)
    requires NoDebt(b) && b.positions.Keys <= {symbol} && symbol in b.marks && b.marks[symbol] == price > 0.0
    ensures Equity(b) >= -EPS9 - Value(EPS9, price)
  {
    var values := MarketValues(b);
    if symbol in b.positions {
      SumSplit(values, symbol);
      assert values - {symbol} == map[];
      assert Quantity(b, symbol) >= -EPS9;
      assert values[symbol] == Value(Quantity(b, symbol), price);
      assert Value(Quantity(b, symbol), price) + Value(EPS9, price) == (Quantity(b, symbol) + EPS9) * price >= 0.0;
    } else {
      assert values == map[];
      assert Value(EPS9, price) >= 0.0;
    }
  }

  lemma LargerValue(a: real, b: real, price: real)
    requires a > b && price > 0.0
    ensures Value(a, price) > Value(b, price)
  {
    ValuePositive(a - b, price);
    assert a * price - b * price == (a - b) * price;
  }

  lemma ScreenedAccepts(cfg: Config, s: Session, e: Event, signal: Signal, o: Order, symbol: string)
    requires o.quantity > 0.0 && o.orderType == Market && o.symbol == symbol && !Blank(symbol) && !s.kill.triggered
    ensures var i := Screened(cfg, s, e, signal, o);
            && (i.status == Accepted <==>
                  Screen(cfg.risk, s.usage, false, i.order, e.bar.close, Quantity(s.book.book, e.bar.symbol),
                         MarketValue(s.book.book), Equity(s.book.book)) == None)
            && i.order == o.(id := i.order.id)
            && (i.status == Accepted ==> i.filled == 0.0 && i.scheduled == Some(e.seqNo + 1))
  {
    hide Blank, Screen, MarketValue, Equity, Quantity, Fixed8;
  }

  // The state of both engines once the strategy has answered: at most one order, taken or refused by both.
  lemma OrderAgrees(bt: Backtest.Config, cfg: Config, bars: seq<Bar>, symbol: string, e: Event, k: nat,
                    b: Backtest.State, s: Session, signal: Signal, orders: seq<Order>)
    requires Matched(bt, cfg, bars) && k < |bars| && Increasing(bars) && BacktestProofs.SingleSymbol(bars, symbol)
    requires e.bar == bars[k] && !Blank(symbol) && !s.kill.triggered && Names(s, s.pending)
    requires SameBook(b.book, s.book.book) && b.pending == None && s.pending == []
    requires Loaded(cfg, k, s.usage) && Equity(s.book.book) >= -EPS9 - Value(EPS9, bars[k].close)
    requires |orders| <= 1
    requires forall o :: o in orders ==> o.quantity > 0.0 && o.orderType == Market && o.symbol == symbol
    ensures var r := Backtest.PlaceAll(bt, bars, k, b, orders);
            var t := SubmitAll(cfg, s, e, signal, orders);
            && r.Ok? && r.value.book == b.book && r.value.shown == b.shown && r.value.signals == b.signals
            && Loaded(cfg, k + 1, t.usage)
            && (k + 1 < |bars| ==>
                  && SamePending(symbol, e.seqNo + 1, r.value.pending, t.intents, t.pending)
                  && (r.value.pending.Some? ==> r.value.pending.value.signalTs < bars[k + 1].timestamp)
                  && Covered(symbol, r.value))
  {
    BacktestProofs.PlaceAllKeeps(bt, bars, k, b, orders);
    if orders != [] {
      var o := orders[0];
      assert orders == [o] && orders[1..] == [];
      SameBookValues(b.book, s.book.book);
      ScreenedAccepts(cfg, s, e, signal, o, symbol);
      var i := Screened(cfg, s, e, signal, o);
      var position, exposure := Quantity(b.book, symbol), MarketValue(b.book);
      VerdictsAgree(bt, cfg, bars, k, s.usage, o, i.order, position, exposure, Equity(s.book.book));
      var verdict := Risk.CheckOrder(bt.risk, o, bars[k].close, position, exposure);
      if verdict == None {
        BacktestProofs.AcceptedIsCovered(bt.risk, o, bars[k].close, position, exposure);
      }
      var t := Submit(cfg, s, e, signal, o);
      assert SubmitAll(cfg, s, e, signal, orders) == SubmitAll(cfg, t, e, signal, []) == t;
      var r := Backtest.Place(bt, bars, k, b, o);
      assert r.Ok? ==> Backtest.PlaceAll(bt, bars, k, b, orders) == Backtest.PlaceAll(bt, bars, k, r.value, []) == r;
      hide Screened, Risk.CheckOrder, MarketValue, Equity, Quantity, Matched, SameBook, SubmitAll, Backtest.PlaceAll;
      hide Unrealized, Charged, Screen, Blank, Value;
    }
  }

  lemma SameBookRecorded(a: Book, b: Book, ts: int)
    requires SameBook(a, b) && NoDebt(a)
    ensures SameBook(Record(a, ts), Record(b, ts)) && NoDebt(Record(a, ts))
  {
    SameBookValues(a, b);
    hide Equity, MarketValue, Unrealized;
    assert forall s :: Quantity(Record(a, ts), s) == Quantity(a, s);
  }

  // Both engines between the open and the close of bar k.
  ghost predicate AtClose(cfg: Config, es: seq<Event>, bars: seq<Bar>, symbol: string, k: nat, b: Backtest.State,
                          s: Session)
    requires k < |es| == |bars|
  {
    && s.started && !s.stopped && s.halt == None && !s.kill.triggered && s.pending == [] && b.pending == None
    && SameBook(b.book, s.book.book) && s.book.book.fills == s.fills && NoDebt(b.book)
    && b.shown == Blanked(s.shown) && HistoryOf(s, symbol) == bars[..k] && SameFeed(cfg, es, k + 1, symbol, s.feed)
    && b.book.positions.Keys <= {symbol} && Loaded(cfg, k, s.usage)
  }

  // Phases 3 and 4 together.
  lemma CloseAgrees(bt: Backtest.Config, cfg: Config, strategy: Strategy, es: seq<Event>, bars: seq<Bar>,
                    symbol: string, first: nat, k: nat, b: Backtest.State, s: Session)
    requires Matched(bt, cfg, bars) && Replays(cfg, es, bars, symbol, first) && Comparable(strategy) && k < |bars|
    requires AtClose(cfg, es, bars, symbol, k, b, s)
    ensures var seen := Backtest.Observe(strategy, bars, k, b);
            var t := Decide(cfg, strategy, Observed(s, es[k]), es[k]);
            if seen.Err? then SameFailure(seen.error, t.halt)
            else
              var placed := Backtest.PlaceAll(bt, bars, k, seen.value.0, seen.value.1);
              placed.Ok? &&
              Related(cfg, es, bars, symbol, k + 1,
                      placed.value.(book := Record(placed.value.book, bars[k].timestamp)), t)
  {
    var e := es[k];
    ObserveAgrees(strategy, bars, symbol, e, k, b, s);
    var s3 := Observed(s, e);
    var seen := Backtest.Observe(strategy, bars, k, b);
    ObservedKeeps(s, e);
    ObservedFloor(s, e, b.book, symbol);
    hide Loaded, Value, Equity, Observed, Backtest.Observe, SameFeed, SameBook, NoDebt, Matched, Blanked;
    if seen.Ok? {
      OrdersFit(strategy, s3.shown, symbol);
      OrdersAgree(bt, cfg, strategy, es, bars, symbol, first, k, seen.value.0, s3, strategy(s3.shown).signal,
                  seen.value.1);
      hide Related, Backtest.PlaceAll, SubmitAll, Record;
    }
  }

  lemma ObservedKeeps(s: Session, e: Event)
    ensures var t := Observed(s, e);
            t.pending == s.pending && t.kill == s.kill && t.feed == s.feed && t.halt == s.halt
            && t.started == s.started && t.stopped == s.stopped && t.usage == s.usage
            && t.book.book.positions == s.book.book.positions
  {
  }

  lemma ObservedFloor(s: Session, e: Event, b: Book, symbol: string)
    requires SameBook(b, s.book.book) && NoDebt(b) && b.positions.Keys <= {symbol}
    requires e.bar.symbol == symbol && e.bar.close > 0.0
    ensures Equity(Observed(s, e).book.book) >= -EPS9 - Value(EPS9, e.bar.close)
  {
    var marked := SetMark(s.book.book, symbol, e.bar.close);
    assert forall x :: Quantity(marked, x) == Quantity(b, x);
    EquityFloor(marked, symbol, e.bar.close);
    hide Equity, Value, Quantity;
  }

  lemma OrdersAgree(bt: Backtest.Config, cfg: Config, strategy: Strategy, es: seq<Event>, bars: seq<Bar>,
                    symbol: string, first: nat, k: nat, b: Backtest.State, s: Session, signal: Signal,
                    orders: seq<Order>)
    requires Matched(bt, cfg, bars) && Replays(cfg, es, bars, symbol, first) && k < |bars|
    requires s.started && !s.stopped && s.halt == None && !s.kill.triggered && s.pending == [] && b.pending == None
    requires SameBook(b.book, s.book.book) && s.book.book.fills == s.fills && NoDebt(b.book)
    requires b.shown == Blanked(s.shown) && HistoryOf(s, symbol) == bars[..k + 1]
    requires SameFeed(cfg, es, k + 1, symbol, s.feed)
    requires strategy(s.shown) == Decision(signal, orders) && |orders| <= 1
    requires forall o :: o in orders ==> o.quantity > 0.0 && o.orderType == Market && o.symbol == symbol
    requires b.book.positions.Keys <= {symbol} && Loaded(cfg, k, s.usage)
    requires Equity(s.book.book) >= -EPS9 - Value(EPS9, bars[k].close)
    ensures var placed := Backtest.PlaceAll(bt, bars, k, b, orders);
            && placed.Ok?
            && Related(cfg, es, bars, symbol, k + 1,
                       placed.value.(book := Record(placed.value.book, bars[k].timestamp)),
                       Decide(cfg, strategy, s, es[k]))
  {
    var e := es[k];
    OrderAgrees(bt, cfg, bars, symbol, e, k, b, s, signal, orders);
    SubmitAllFrame(cfg, s, e, signal, orders);
    SameBookRecorded(b.book, s.book.book, bars[k].timestamp);
    RecordKeepsFills(s.book.book, bars[k].timestamp);
    var placed := Backtest.PlaceAll(bt, bars, k, b, orders);
    CoverableFrame(symbol, placed.value, bars[k].timestamp);
    assert k + 1 < |bars| ==> es[k + 1].seqNo == e.seqNo + 1;
    RecordKeepsPositions(b.book, bars[k].timestamp);
    hide SubmitAll, Backtest.PlaceAll, Record, Matched, Blanked, SamePending, Covered, SameBook, NoDebt;
    hide SameFeed, Replays, Loaded, Equity, Value, SameTrades, Increasing;
  }

  lemma CoverableFrame(symbol: string, b: Backtest.State, ts: int)
    ensures Covered(symbol, b) ==> Covered(symbol, b.(book := Record(b.book, ts)))
  {
    hide PointOf;
  }

  lemma RecordKeepsFills(b: Book, ts: int)
    ensures Record(b, ts).fills == b.fills
  {
  }

  lemma RecordKeepsPositions(b: Book, ts: int)
    ensures Record(b, ts).positions == b.positions
  {
  }

  // A fill adds at most its own symbol to the positions.
  lemma FilledSymbols(bt: Backtest.Config, bar: Bar, symbol: string, b: Backtest.State)
    requires Covered(symbol, b) && b.book.positions.Keys <= {symbol}
    ensures var r := Backtest.FillPending(bt, bar, b); r.Ok? ==> r.value.book.positions.Keys <= {symbol}
  {
    hide CostOf, Slip, Value, HoldingAfter, GainOf, SlippageOf;
  }

  lemma OrdersFit(strategy: Strategy, shown: seq<Context>, symbol: string)
    requires Comparable(strategy) && shown != [] && shown[|shown| - 1].symbol == symbol && strategy(shown).Decision?
    ensures |strategy(shown).orders| <= 1
    ensures forall o :: o in strategy(shown).orders ==> o.quantity > 0.0 && o.orderType == Market && o.symbol == symbol
  {
    hide IgnoresMembership;
  }

  // ---- whole runs

  function Ticks(es: seq<Event>): seq<Command> {
    seq(|es|, i requires 0 <= i < |es| => Tick(es[i]))
  }

  lemma TicksAppend(es: seq<Event>, j: nat)
    requires j < |es|
    ensures Ticks(es[..j + 1]) == Ticks(es[..j]) + [Tick(es[j])]
  {
  }

  lemma {:induction false} RunSnoc(cfg: Config, strategy: Strategy, s: Session, cs: seq<Command>, c: Command)
    requires Names(s, s.pending)
    ensures Run(cfg, strategy, s, cs + [c]) == Obey(cfg, strategy, Run(cfg, strategy, s, cs), c)
    decreases |cs|
  {
    hide Obey;
    if cs == [] {
      assert cs + [c] == [c] && [c][1..] == [];
      assert Run(cfg, strategy, s, [c]) == Run(cfg, strategy, Obey(cfg, strategy, s, c), []);
    } else {
      assert (cs + [c])[0] == cs[0] && (cs + [c])[1..] == cs[1..] + [c];
      RunSnoc(cfg, strategy, Obey(cfg, strategy, s, cs[0]), cs[1..], c);
    }
  }

  ghost predicate Agree(cfg: Config, es: seq<Event>, bars: seq<Bar>, symbol: string, k: nat,
                        r: Result<Backtest.State, Backtest.Failure>, s: Session)
    requires k <= |es| == |bars|
  {
    if r.Err? then SameFailure(r.error, s.halt) else Related(cfg, es, bars, symbol, k, r.value, s)
  }

  // Phases 1 and 2 together.
  lemma OpenAgrees(bt: Backtest.Config, cfg: Config, es: seq<Event>, bars: seq<Bar>, symbol: string, first: nat,
                   k: nat, b: Backtest.State, s: Session)
    requires cfg.exec.policy == AllOrNothing
    requires Matched(bt, cfg, bars) && Replays(cfg, es, bars, symbol, first) && k < |bars|
    requires Alive(cfg, s) && Kept(cfg, s, false) && Related(cfg, es, bars, symbol, k, b, s)
    ensures var s1 := Admit(cfg, s, es[k]);
            && s1.halt == None && Names(s1, s1.pending) && Running(s) && Names(s, s.pending)
            && var r, s2 := Backtest.FillPending(bt, bars[k], b), ExecutePending(cfg, s1, es[k]);
               && (r.Err? ==> s2.halt.Some? && Agree(cfg, es, bars, symbol, k + 1, Err(r.error), s2))
               && (r.Ok? ==> s2.halt == None && AtClose(cfg, es, bars, symbol, k, r.value, s2))
  {
    var e := es[k];
    AdmitReplays(cfg, es, bars, symbol, first, k, s);
    AdmitLife(cfg, s, e);
    var s1 := Admit(cfg, s, e);
    AdmitKept(cfg, s, s1, false);
    AliveNames(cfg, s1);
    hide Admit, ExecutePending, Alive, Kept, Backtest.FillPending, Matched, SameFailure;
    hide SameBook, NoDebt, SameFeed, Blanked, Covered, SamePending, Loaded;
    PendingAgrees(bt, cfg, bars, symbol, e, b, s1);
    FilledSymbols(bt, bars[k], symbol, b);
    var r, s2 := Backtest.FillPending(bt, bars[k], b), ExecutePending(cfg, s1, e);
    if r.Err? {
      FailedHalts(cfg, es, bars, symbol, k + 1, r.error, s2);
    }
  }

  lemma FailedHalts(cfg: Config, es: seq<Event>, bars: seq<Bar>, symbol: string, k: nat, f: Backtest.Failure,
                    s: Session)
    requires k <= |es| == |bars| && SameFailure(f, s.halt)
    ensures s.halt.Some? && Agree(cfg, es, bars, symbol, k, Err(f), s)
  {
    hide Related;
  }

  // One bar in both engines.
  lemma StepAgrees(bt: Backtest.Config, cfg: Config, strategy: Strategy, es: seq<Event>, bars: seq<Bar>, symbol: string,
                   first: nat, k: nat, b: Backtest.State, s: Session)
    requires cfg.exec.policy == AllOrNothing
    requires Matched(bt, cfg, bars) && Replays(cfg, es, bars, symbol, first) && Comparable(strategy) && k < |bars|
    requires Alive(cfg, s) && Kept(cfg, s, false) && Related(cfg, es, bars, symbol, k, b, s)
    ensures Agree(cfg, es, bars, symbol, k + 1, Backtest.Step(bt, strategy, bars, k, b),
                  Obey(cfg, strategy, s, Tick(es[k])))
  {
    assert |es| == |bars|;
    hide *;
    OpenAgrees(bt, cfg, es, bars, symbol, first, k, b, s);
    BarShape(bt, strategy, bars, k, b);
    EventShape(cfg, strategy, s, es[k]);
    var filled := Backtest.FillPending(bt, bars[k], b);
    if filled.Ok? {
      ClosedAgrees(bt, cfg, strategy, es, bars, symbol, first, k, filled.value,
                   ExecutePending(cfg, Admit(cfg, s, es[k]), es[k]));
    }
  }

  // What a bar does after its open.
  ghost function ClosedBar(bt: Backtest.Config, strategy: Strategy, bars: seq<Bar>, k: nat, b: Backtest.State):
      Result<Backtest.State, Backtest.Failure>
    requires k < |bars|
  {
    var seen := Backtest.Observe(strategy, bars, k, b);
    if seen.Err? then Err(seen.error)
    else
      var placed := Backtest.PlaceAll(bt, bars, k, seen.value.0, seen.value.1);
      if placed.Err? then Err(placed.error)
      else Ok(placed.value.(book := Record(placed.value.book, bars[k].timestamp)))
  }

  lemma BarShape(bt: Backtest.Config, strategy: Strategy, bars: seq<Bar>, k: nat, b: Backtest.State)
    requires k < |bars|
    ensures var filled := Backtest.FillPending(bt, bars[k], b);
            Backtest.Step(bt, strategy, bars, k, b) ==
            if filled.Err? then Err(filled.error) else ClosedBar(bt, strategy, bars, k, filled.value)
  {
    hide Backtest.FillPending, Backtest.Observe, Backtest.PlaceAll, Record;
  }

  lemma ClosedAgrees(bt: Backtest.Config, cfg: Config, strategy: Strategy, es: seq<Event>, bars: seq<Bar>,
                     symbol: string, first: nat, k: nat, b: Backtest.State, s: Session)
    requires Matched(bt, cfg, bars) && Replays(cfg, es, bars, symbol, first) && Comparable(strategy) && k < |bars|
    requires AtClose(cfg, es, bars, symbol, k, b, s)
    ensures Agree(cfg, es, bars, symbol, k + 1, ClosedBar(bt, strategy, bars, k, b),
                  Decide(cfg, strategy, Observed(s, es[k]), es[k]))
  {
    CloseAgrees(bt, cfg, strategy, es, bars, symbol, first, k, b, s);
    hide Matched, Replays, Comparable, AtClose, Related, Decide, Observed, Backtest.Observe, Backtest.PlaceAll, Record;
    hide SameFailure;
  }

  lemma StartAgrees(bt: Backtest.Config, cfg: Config, es: seq<Event>, bars: seq<Bar>, symbol: string, first: nat)
    requires Matched(bt, cfg, bars) && Replays(cfg, es, bars, symbol, first)
    ensures Related(cfg, es, bars, symbol, 0, Backtest.Start(bt), Opened(cfg))
  {
  }

  lemma {:induction false} WholeRunsAgree(bt: Backtest.Config, cfg: Config, strategy: Strategy, es: seq<Event>,
                                          bars: seq<Bar>, symbol: string, first: nat, k: nat)
    requires cfg.exec.policy == AllOrNothing
    requires Matched(bt, cfg, bars) && Replays(cfg, es, bars, symbol, first) && Comparable(strategy) && k <= |bars|
    ensures var s := Run(cfg, strategy, Opened(cfg), Ticks(es[..k]));
            Agree(cfg, es, bars, symbol, k, Backtest.After(bt, strategy, bars, k), s)
    decreases k
  {
    hide *;
    if k == 0 {
      FirstAgrees(bt, cfg, strategy, es, bars, symbol, first);
    } else {
      WholeRunsAgree(bt, cfg, strategy, es, bars, symbol, first, k - 1);
      RunsAgreeNext(bt, cfg, strategy, es, bars, symbol, first, k - 1);
    }
  }

  // Nothing the relation speaks of depends on which of the two policies fills orders whole.
  lemma RunsAgree(bt: Backtest.Config, cfg: Config, strategy: Strategy, es: seq<Event>, bars: seq<Bar>,
                  symbol: string, first: nat, k: nat)
    requires Matched(bt, cfg, bars) && Replays(cfg, es, bars, symbol, first) && Comparable(strategy) && k <= |bars|
    ensures var s := Run(cfg, strategy, Opened(cfg), Ticks(es[..k]));
            Agree(cfg, es, bars, symbol, k, Backtest.After(bt, strategy, bars, k), s)
  {
    OpenedAlive(cfg);
    AliveNames(cfg, Opened(cfg));
    MatchedWhole(bt, cfg, es, bars, symbol, first);
    hide *;
    SameRun(cfg, strategy, Opened(cfg), Ticks(es[..k]));
    WholeRunsAgree(bt, AtOnce(cfg), strategy, es, bars, symbol, first, k);
    AgreeWhole(cfg, es, bars, symbol, k, Backtest.After(bt, strategy, bars, k),
               Run(cfg, strategy, Opened(cfg), Ticks(es[..k])));
  }

  lemma MatchedWhole(bt: Backtest.Config, cfg: Config, es: seq<Event>, bars: seq<Bar>, symbol: string, first: nat)
    requires Matched(bt, cfg, bars) && Replays(cfg, es, bars, symbol, first)
    ensures Matched(bt, AtOnce(cfg), bars) && Replays(AtOnce(cfg), es, bars, symbol, first)
    ensures FillsWhole(cfg) && AtOnce(cfg).exec.policy == AllOrNothing && |es| == |bars|
  {
    hide SellsCovered, NeverBind;
  }

  lemma AgreeWhole(cfg: Config, es: seq<Event>, bars: seq<Bar>, symbol: string, k: nat,
                   r: Result<Backtest.State, Backtest.Failure>, s: Session)
    requires k <= |es| == |bars| && Agree(AtOnce(cfg), es, bars, symbol, k, r, s)
    ensures Agree(cfg, es, bars, symbol, k, r, s)
  {
    hide SamePending, Covered, NoDebt, SameBook, Blanked;
  }

  lemma FirstAgrees(bt: Backtest.Config, cfg: Config, strategy: Strategy, es: seq<Event>, bars: seq<Bar>,
                    symbol: string, first: nat)
    requires Matched(bt, cfg, bars) && Replays(cfg, es, bars, symbol, first)
    ensures Agree(cfg, es, bars, symbol, 0, Backtest.After(bt, strategy, bars, 0),
                  Run(cfg, strategy, Opened(cfg), Ticks(es[..0])))
  {
    assert Ticks(es[..0]) == [];
    StartAgrees(bt, cfg, es, bars, symbol, first);
    hide Related, Opened, Matched, Replays;
  }

  lemma RunsAgreeNext(bt: Backtest.Config, cfg: Config, strategy: Strategy, es: seq<Event>,
                      bars: seq<Bar>, symbol: string, first: nat, j: nat)
    requires cfg.exec.policy == AllOrNothing
    requires Matched(bt, cfg, bars) && Replays(cfg, es, bars, symbol, first) && Comparable(strategy) && j < |bars|
    requires Agree(cfg, es, bars, symbol, j, Backtest.After(bt, strategy, bars, j),
                   Run(cfg, strategy, Opened(cfg), Ticks(es[..j])))
    ensures Agree(cfg, es, bars, symbol, j + 1, Backtest.After(bt, strategy, bars, j + 1),
                  Run(cfg, strategy, Opened(cfg), Ticks(es[..j + 1])))
  {
    var s0 := Opened(cfg);
    var cs := Ticks(es[..j]);
    assert ValidConfig(cfg) && Fit(cfg, false) && PositiveLots(strategy);
    OpenedAlive(cfg);
    OpenedKept(cfg, false);
    AliveNames(cfg, s0);
    assert Backtest.After(bt, strategy, bars, j + 1) ==
           NextResult(bt, strategy, bars, j, Backtest.After(bt, strategy, bars, j));
    hide *;
    RunLife(cfg, strategy, s0, cs);
    RunKept(cfg, strategy, s0, cs, false);
    TicksAppend(es, j);
    RunSnoc(cfg, strategy, s0, cs, Tick(es[j]));
    NextAgrees(bt, cfg, strategy, es, bars, symbol, first, j, Backtest.After(bt, strategy, bars, j),
               Run(cfg, strategy, s0, cs));
  }

  ghost function NextResult(bt: Backtest.Config, strategy: Strategy, bars: seq<Bar>, j: nat,
                            r: Result<Backtest.State, Backtest.Failure>): Result<Backtest.State, Backtest.Failure>
    requires j < |bars|
  {
    if r.Err? then r else Backtest.Step(bt, strategy, bars, j, r.value)
  }

  lemma NextAgrees(bt: Backtest.Config, cfg: Config, strategy: Strategy, es: seq<Event>, bars: seq<Bar>, symbol: string,
                   first: nat, j: nat, r: Result<Backtest.State, Backtest.Failure>, s: Session)
    requires cfg.exec.policy == AllOrNothing
    requires Matched(bt, cfg, bars) && Replays(cfg, es, bars, symbol, first) && Comparable(strategy) && j < |bars|
    requires Alive(cfg, s) && Kept(cfg, s, false) && Agree(cfg, es, bars, symbol, j, r, s)
    ensures var t := Obey(cfg, strategy, s, Tick(es[j]));
            Agree(cfg, es, bars, symbol, j + 1, NextResult(bt, strategy, bars, j, r), t)
  {
    assert r.Ok? ==> Related(cfg, es, bars, symbol, j, r.value, s);
    assert r.Err? ==> SameFailure(r.error, s.halt);
    assert NextResult(bt, strategy, bars, j, r) == if r.Err? then r else Backtest.Step(bt, strategy, bars, j, r.value);
    hide *;
    if r.Ok? {
      StepAgrees(bt, cfg, strategy, es, bars, symbol, first, j, r.value, s);
    } else {
      FailedStays(cfg, strategy, es, bars, symbol, j, r, s);
    }
  }

  lemma FailedStays(cfg: Config, strategy: Strategy, es: seq<Event>, bars: seq<Bar>, symbol: string, j: nat,
                    r: Result<Backtest.State, Backtest.Failure>, s: Session)
    requires j < |es| == |bars| && Names(s, s.pending) && r.Err? && SameFailure(r.error, s.halt)
    ensures Agree(cfg, es, bars, symbol, j + 1, r, Obey(cfg, strategy, s, Tick(es[j])))
  {
    hide Related, Admit, ExecutePending, Decide;
  }

  // Every single-symbol stream of strictly increasing bars, replayed as consecutive events: after every bar the two
  // engines have shown the strategy the same contexts but for the membership field, hold the same cash, positions,
  // profits, costs, marks and equity curve and have made the same trades;
  // and the paper session halts exactly on the streams on which the backtest fails, at the same bar and for the same
  // reason.
  lemma {:induction false} EnginesAgree(bt: Backtest.Config, cfg: Config, strategy: Strategy, es: seq<Event>,
                                        bars: seq<Bar>, symbol: string, first: nat, k: nat)
    requires Matched(bt, cfg, bars) && Replays(cfg, es, bars, symbol, first) && Comparable(strategy) && k <= |bars|
    ensures var s := Run(cfg, strategy, Opened(cfg), Ticks(es[..k]));
            var r := Backtest.After(bt, strategy, bars, k);
            && (r.Err? <==> s.halt.Some?) && (r.Err? ==> SameFailure(r.error, s.halt))
            && (r.Ok? ==>
                  && r.value.shown == Blanked(s.shown)
                  && SameBook(r.value.book, s.book.book)
                  && SameTrades(r.value.book.fills, s.fills)
                  && Equity(r.value.book) == Equity(s.book.book))
  {
    RunsAgree(bt, cfg, strategy, es, bars, symbol, first, k);
    hide Run, Opened, Matched, Replays, Comparable, Backtest.After;
    var r := Backtest.After(bt, strategy, bars, k);
    if r.Ok? {
      SameBookValues(r.value.book, Run(cfg, strategy, Opened(cfg), Ticks(es[..k])).book.book);
    }
  }

  // Why at most one order per bar: of two orders both engines accept, the backtest keeps only the second, while the
  // paper session queues both, whatever else holds.
  lemma SecondOrderSupersedes(bt: Backtest.Config, bars: seq<Bar>, i: nat, b: Backtest.State, cfg: Config, s: Session,
                              e: Event, signal: Signal, first: Order, second: Order)
    requires i + 1 < |bars| && bars[i].timestamp < bars[i + 1].timestamp && Names(s, s.pending)
    requires forall o :: o in [first, second] ==>
               Risk.CheckOrder(bt.risk, o, bars[i].close, Quantity(b.book, bars[i].symbol), MarketValue(b.book)) == None
    requires var s1 := Submit(cfg, s, e, signal, first);
             && Screened(cfg, s, e, signal, first).status == Accepted
             && Screened(cfg, s1, e, signal, second).status == Accepted
    ensures var r := Backtest.PlaceAll(bt, bars, i, b, [first, second]);
            r.Ok? && r.value.pending == Some(Backtest.Scheduled(second, bars[i].timestamp))
    ensures SubmitAll(cfg, s, e, signal, [first, second]).pending == s.pending + [|s.intents|, |s.intents| + 1]
  {
    var both := [first, second];
    assert both[1..] == [second] && [second][1..] == [];
    hide Risk.CheckOrder, Screened, MarketValue, Charged;
    assert first in both && second in both;
    var b1 := Backtest.Place(bt, bars, i, b, first);
    assert b1.Ok? && b1.value.book == b.book;
    var b2 := Backtest.Place(bt, bars, i, b1.value, second);
    assert b2.Ok? && Backtest.PlaceAll(bt, bars, i, b2.value, []) == b2;
    assert Backtest.PlaceAll(bt, bars, i, b1.value, [second]) == b2;
    var s1 := Submit(cfg, s, e, signal, first);
    assert SubmitAll(cfg, s1, e, signal, [second]) == Submit(cfg, s1, e, signal, second);
  }
}
