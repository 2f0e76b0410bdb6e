// Money over whole paper runs: the book is exactly what the fills say, cash and holdings stay above the tolerance,
// and the closing reconciliation finds nothing.

module PaperMoney {
  import opened Trading
  import opened Costs
  import opened Ledger
  import opened PaperOrders
  import opened PaperRisk
  import opened PaperExecution
  import opened PaperBooks
  import opened PaperReconciliation
  import opened PaperSessions
  import opened PaperAttempts
  import opened WholeFills
  import opened PaperLifecycle
  import opened Strategies

  // Fill sequence numbers strictly increase along the fills and never pass the venue's counter.
  ghost predicate SequencedFills(fills: seq<Fill>, counter: nat) {
    && (forall j :: 0 <= j < |fills| ==> fills[j].id.FillId? && fills[j].id.fillSeq <= counter)
    && (forall j, l :: 0 <= j < l < |fills| ==> fills[j].id.fillSeq < fills[l].id.fillSeq)
  }

  // The ledgers and the portfolio hold exactly the fills.
  ghost predicate MirrorsFills(p: PaperBook, fills: seq<Fill>, initialCash: real) {
    && p.book.fills == fills
    && p.applied == FillIds(fills)
    && LedgerIds(p) == FillIds(fills)
    && p.book.cash == initialCash + NetCash(fills)
    && forall s :: Quantity(p.book, s) == NetQuantity(fills, s)
  }

  ghost predicate NoDebt(b: Book) {
    b.cash >= -EPS9 && forall s :: Quantity(b, s) >= -EPS9
  }

  ghost predicate AllPositive(fills: seq<Fill>) {
    forall f :: f in fills ==> f.quantity > 0.0
  }

  // The one way the ledger can refuse: the last fill buys no more than a holding is short, which is never more than
  // the tolerance.
  ghost predicate DustRefused(s: Session) {
    && s.fills != []
    && var f := s.fills[|s.fills| - 1];
       && f.side == Buy && 0.0 < f.quantity <= -Quantity(s.book.book, f.symbol) <= EPS9
  }

  // A refused fill is listed, and the book still holds exactly the fills before it.
  ghost predicate HoldsTheRest(s: Session, initialCash: real) {
    && s.fills != []
    && var rest := s.fills[..|s.fills| - 1];
       && s.book.applied == FillIds(rest) && LedgerIds(s.book) == FillIds(rest)
       && s.book.book.cash == initialCash + NetCash(rest)
       && (forall sym :: Quantity(s.book.book, sym) == NetQuantity(rest, sym))
       && NoDebt(s.book.book) && AllPositive(s.fills)
  }

  ghost predicate Money(cfg: Config, s: Session) {
    && SequencedFills(s.fills, s.venue.fillSeq)
    && (s.halt == Some(LedgerRefused) ==> DustRefused(s) && HoldsTheRest(s, cfg.initialCash))
    && (s.halt != Some(LedgerRefused) ==>
          && MirrorsFills(s.book, s.fills, cfg.initialCash)
          && NoDebt(s.book.book) && AllPositive(s.fills)
          && Balance(s.book.book) == cfg.initialCash)
  }

  // ---- one fill

  lemma MirrorsAppend(p: PaperBook, fills: seq<Fill>, initialCash: real, f: Fill)
    requires MirrorsFills(p, fills, initialCash) && !CannotApply(p, f)
    ensures MirrorsFills(Applied(p, f), fills + [f], initialCash)
  {
    Appended(fills, f, None);
    hide EntryOf, GainOf, SlippageOf, NetQuantity, NetCash, Traded, AnyImpossible, AnyOrphan;
    var p' := Applied(p, f);
    assert FillIds(fills + [f]) == FillIds(fills) + {f.id} by {
      assert f in fills + [f];
      assert forall g :: g in fills ==> g in fills + [f];
    }
    RowsAppend(p, f);
    forall s
      ensures Quantity(p'.book, s) == NetQuantity(fills + [f], s)
    {
      AppliedQuantity(p, f, s);
    }
  }

  lemma RowsAppend(p: PaperBook, f: Fill)
    requires !CannotApply(p, f)
    ensures LedgerIds(Applied(p, f)) == LedgerIds(p) + {f.id}
  {
    hide AfterFill, Quantity, Refuses;
    var rows := Applied(p, f).positionLedger;
    var row := rows[|rows| - 1];
    assert rows == p.positionLedger + [row] && row.fillId == f.id;
    assert row in rows;
    assert forall e :: e in p.positionLedger ==> e in rows;
  }

  lemma AppliedQuantity(p: PaperBook, f: Fill, s: string)
    requires !CannotApply(p, f)
    ensures Quantity(Applied(p, f).book, s) ==
            Quantity(p.book, s) + (if f.symbol == s then SignedQuantity(f) else 0.0)
    ensures Applied(p, f).book == AfterFill(p.book, f)
  {
    hide EntryOf, GainOf, SlippageOf, Value;
  }

  lemma FreshId(fills: seq<Fill>, counter: nat, f: Fill)
    requires SequencedFills(fills, counter) && f.id.FillId? && f.id.fillSeq == counter + 1
    ensures f.id !in FillIds(fills)
    ensures SequencedFills(fills + [f], counter + 1)
  {
  }

  // ---- one attempt

  // A due attempt, on a book that mirrors its fills, whose fill the ledger does not refuse, keeps the money right.
  lemma MoneyAfterOne(cfg: Config, s: Session, e: Event, k: nat)
    requires ValidConfig(cfg) && SellsCovered(cfg.exec.costs)
    requires Life(cfg, s) && Money(cfg, s) && s.halt == None
    requires k < |s.intents| && Open(s.intents[k]) && Due(s.intents[k], e)
    ensures Money(cfg, ExecuteOne(cfg, s, e, k))
  {
    var i := s.intents[k];
    var cash, position := s.book.book.cash, Quantity(s.book.book, e.bar.symbol);
    IntentWellFormed(cfg, s, k);
    AttemptedShape(cfg.exec, s.venue, i, e.bar.timestamp, e.bar.open, cash, position, Closed(cfg, e));
    ExecuteOneShape(cfg, s, e, k);
    var a := AttemptAt(cfg, s, e, k);
    if a.outcome.FilledWith? {
      AttemptedMoney(cfg.exec, s.venue, i, e.bar.timestamp, e.bar.open, cash, position, Closed(cfg, e));
      var f := a.outcome.fill;
      assert ValidFill(f) && BalancedFill(f);
      assert f.symbol == e.bar.symbol;
      MoneyAfterFill(cfg, s, ExecuteOne(cfg, s, e, k), f);
    } else {
      hide ExecuteOne, AttemptAt, Life, ValidConfig, SellsCovered, MirrorsFills, NoDebt, AllPositive, Balance;
      assert SequencedFills(s.fills, ExecuteOne(cfg, s, e, k).venue.fillSeq);
    }
  }

  // An affordable buy and a covered sale leave no debt and keep the balance.
  lemma NoDebtAfterFill(p: PaperBook, f: Fill)
    requires NoDebt(p.book) && !CannotApply(p, f) && BalancedFill(f)
    requires f.side == Buy ==> p.book.cash + f.netCash >= -EPS9
    requires f.side == Sell ==> f.quantity <= Quantity(p.book, f.symbol) + EPS9 && f.netCash >= 0.0
    requires f.quantity > 0.0
    ensures NoDebt(Applied(p, f).book) && Balance(Applied(p, f).book) == Balance(p.book)
  {
    BalanceKept(p.book, DoFill(f));
    var b' := AfterFill(p.book, f);
    assert b'.cash == p.book.cash + f.netCash;
    AppliedQuantity(p, f, f.symbol);
    hide AfterFill, Applied, Balance, Quantity, CannotApply, BalancedFill;
    forall sym
      ensures Quantity(b', sym) >= -EPS9
    {
      AppliedQuantity(p, f, sym);
    }
  }

  lemma MoneyTaken(cfg: Config, s: Session, s': Session, f: Fill)
    requires Money(cfg, s) && s.halt == None && s'.halt == None && f.quantity > 0.0
    requires s'.fills == s.fills + [f] && s'.book == Applied(s.book, f)
    requires SequencedFills(s'.fills, s'.venue.fillSeq) && MirrorsFills(s'.book, s'.fills, cfg.initialCash)
    requires NoDebt(s'.book.book) && Balance(s'.book.book) == Balance(s.book.book)
    ensures Money(cfg, s')
  {
    hide Applied, MirrorsFills, Balance, NoDebt, SequencedFills;
  }

  lemma RefusedLeft(cfg: Config, s: Session, s': Session, f: Fill)
    requires MirrorsFills(s.book, s.fills, cfg.initialCash) && NoDebt(s.book.book) && AllPositive(s.fills)
    requires f.quantity > 0.0 && f.id !in FillIds(s.fills) && CannotApply(s.book, f)
    requires f.side == Sell ==> f.quantity <= Quantity(s.book.book, f.symbol) + EPS9
    requires s'.fills == s.fills + [f] && s'.book == Applied(s.book, f)
    ensures DustRefused(s') && HoldsTheRest(s', cfg.initialCash)
  {
    assert s'.fills[|s'.fills| - 1] == f && s'.fills[..|s'.fills| - 1] == s.fills;
    assert forall sym :: Quantity(s'.book.book, sym) == Quantity(s.book.book, sym);
    assert LedgerIds(s'.book) == LedgerIds(s.book);
    hide Quantity, NetQuantity, NetCash, FillIds, LedgerIds, SlippageOf;
  }

  lemma MoneyAfterFill(cfg: Config, s: Session, s': Session, f: Fill)
    requires Money(cfg, s) && s.halt == None
    requires f.id.FillId? && f.id.fillSeq == s.venue.fillSeq + 1 && s'.venue.fillSeq == s.venue.fillSeq + 1
    requires f.quantity > 0.0 && BalancedFill(f)
    requires f.side == Buy ==> s.book.book.cash + f.netCash >= -EPS9
    requires f.side == Sell ==> f.quantity <= Quantity(s.book.book, f.symbol) + EPS9 && f.netCash >= 0.0
    requires s'.fills == s.fills + [f] && s'.book == Applied(s.book, f)
    requires s'.halt == (if CannotApply(s.book, f) then Some(LedgerRefused) else None)
    ensures Money(cfg, s')
  {
    FreshId(s.fills, s.venue.fillSeq, f);
    if !CannotApply(s.book, f) {
      MirrorsAppend(s.book, s.fills, cfg.initialCash, f);
      NoDebtAfterFill(s.book, f);
      hide *;
      MoneyTaken(cfg, s, s', f);
    } else {
      RefusedLeft(cfg, s, s', f);
    }
  }

  // Exactly when an attempt is refused by the ledger, under either policy: it fills a buy of no more than the symbol
  // is short.
  lemma RefusedIff(cfg: Config, s: Session, e: Event, k: nat)
    requires ValidConfig(cfg) && SellsCovered(cfg.exec.costs)
    requires Life(cfg, s) && Money(cfg, s) && s.halt == None
    requires k < |s.intents| && Open(s.intents[k]) && Due(s.intents[k], e)
    ensures var i, a := s.intents[k], AttemptAt(cfg, s, e, k);
            ExecuteOne(cfg, s, e, k).halt == Some(LedgerRefused) <==>
            && a.outcome.FilledWith? && i.order.side == Buy
            && NextQuantity(cfg.exec, i) <= -Quantity(s.book.book, e.bar.symbol)
  {
    var i := s.intents[k];
    var cash, position := s.book.book.cash, Quantity(s.book.book, e.bar.symbol);
    IntentWellFormed(cfg, s, k);
    AttemptedShape(cfg.exec, s.venue, i, e.bar.timestamp, e.bar.open, cash, position, Closed(cfg, e));
    ExecuteOneShape(cfg, s, e, k);
    var a := AttemptAt(cfg, s, e, k);
    if a.outcome.FilledWith? {
      AttemptedMoney(cfg.exec, s.venue, i, e.bar.timestamp, e.bar.open, cash, position, Closed(cfg, e));
      FreshId(s.fills, s.venue.fillSeq, a.outcome.fill);
    }
    hide ExecuteOne, AttemptAt, Life, NoDebt, Balance, SequencedFills, ValidConfig, SellsCovered, WellFormed;
    hide NextQuantity;
  }

  // Under all-or-nothing, with orders above the tolerance, the ledger never refuses a fill.
  ghost predicate Lots(s: Session) {
    forall i :: 0 <= i < |s.intents| ==> s.intents[i].status != Rejected ==> s.intents[i].order.quantity > EPS9
  }

  lemma NeverRefused(cfg: Config, s: Session, e: Event, k: nat)
    requires ValidConfig(cfg) && SellsCovered(cfg.exec.costs) && cfg.exec.policy == AllOrNothing
    requires Life(cfg, s) && Money(cfg, s) && Lots(s) && s.halt == None
    requires k < |s.intents| && Open(s.intents[k]) && Due(s.intents[k], e)
    ensures ExecuteOne(cfg, s, e, k).halt != Some(LedgerRefused) && Lots(ExecuteOne(cfg, s, e, k))
  {
    var i := s.intents[k];
    var cash, position := s.book.book.cash, Quantity(s.book.book, e.bar.symbol);
    IntentWellFormed(cfg, s, k);
    AttemptedShape(cfg.exec, s.venue, i, e.bar.timestamp, e.bar.open, cash, position, Closed(cfg, e));
    OpenRemains(cfg.exec, i);
    ExecuteOneShape(cfg, s, e, k);
    var a := AttemptAt(cfg, s, e, k);
    if a.outcome.FilledWith? {
      AttemptedMoney(cfg.exec, s.venue, i, e.bar.timestamp, e.bar.open, cash, position, Closed(cfg, e));
      var f := a.outcome.fill;
      assert f.quantity == i.order.quantity > EPS9;
      FreshId(s.fills, s.venue.fillSeq, f);
      assert !CannotApply(s.book, f);
    }
    hide ExecuteOne, AttemptAt, Life, Money, ValidConfig, SellsCovered, WellFormed;
  }

  // ---- events and runs

  // strict adds what all-or-nothing sessions with orders above the tolerance keep on top.
  ghost predicate Kept(cfg: Config, s: Session, strict: bool) {
    Money(cfg, s) && (strict ==> Lots(s) && s.halt != Some(LedgerRefused))
  }

  predicate Fit(cfg: Config, strict: bool) {
    ValidConfig(cfg) && SellsCovered(cfg.exec.costs) && (strict ==> cfg.exec.policy == AllOrNothing)
  }

  lemma KeptAfterOne(cfg: Config, s: Session, e: Event, k: nat, strict: bool)
    requires Fit(cfg, strict) && Life(cfg, s) && Kept(cfg, s, strict) && s.halt == None
    requires k < |s.intents| && Open(s.intents[k]) && Due(s.intents[k], e)
    ensures Kept(cfg, ExecuteOne(cfg, s, e, k), strict)
  {
    MoneyAfterOne(cfg, s, e, k);
    if strict {
      NeverRefused(cfg, s, e, k);
    }
    hide ExecuteOne, Life, Money, Open, Due;
  }

  lemma {:induction false} KeptAfterQueue(cfg: Config, s: Session, e: Event, todo: seq<nat>, still: seq<nat>,
                                          strict: bool)
    requires Fit(cfg, strict) && Life(cfg, s) && Kept(cfg, s, strict) && s.halt == None
    requires s.feed.lastSeq == Some(e.seqNo) && Names(s, todo) && Names(s, still) && QueueOk(s, still + todo)
    ensures Kept(cfg, ExecuteQueue(cfg, s, e, todo, still).0, strict)
    decreases |todo|
  {
    assert ValidConfig(cfg);
    hide Life, Kept, ExecuteOne, Due, Fit, ValidConfig, Progress, Names;
    if todo != [] {
      var k := todo[0];
      assert (still + todo)[|still|] == k;
      assert still + todo == (still + [k]) + todo[1..];
      assert k < |s.intents| && Open(s.intents[k]);
      hide QueueOk, Open, ExecuteQueue;
      if !Due(s.intents[k], e) {
        QueueSkip(cfg, s, e, todo, still);
        KeptAfterQueue(cfg, s, e, todo[1..], still + [k], strict);
      } else {
        QueueStep(cfg, s, e, todo, still);
        LifeAfterOne(cfg, s, e, k);
        MovedAfterOne(cfg, s, e, k);
        KeptAfterOne(cfg, s, e, k, strict);
        var s' := ExecuteOne(cfg, s, e, k);
        var still' := if s'.intents[k].status == PartiallyFilled then still + [k] else still;
        if s'.halt == None {
          QueueAfterOne(s, s', todo, still, k);
          KeptAfterQueue(cfg, s', e, todo[1..], still', strict);
        } else {
          QueueStops(cfg, s', e, todo[1..], still');
        }
      }
    }
  }

  // Money looks only at the fills, the venue counter, the book and whether the ledger refused.
  lemma KeptFrame(cfg: Config, s: Session, t: Session, strict: bool)
    requires Kept(cfg, s, strict) && s.halt != Some(LedgerRefused) && t.halt != Some(LedgerRefused)
    requires t.fills == s.fills && t.venue == s.venue
    requires t.book == s.book.(book := t.book.book) && SameMoney(s.book.book, t.book.book)
    requires strict ==> Lots(t)
    ensures Kept(cfg, t, strict)
  {
    hide Balance, NetQuantity, NetCash, SequencedFills, FillIds;
    assert LedgerIds(t.book) == LedgerIds(s.book);
    assert forall x :: Quantity(t.book.book, x) == Quantity(s.book.book, x);
  }

  ghost predicate SameMoney(a: Book, b: Book) {
    a.cash == b.cash && a.fills == b.fills && a.positions == b.positions && Balance(a) == Balance(b)
  }

  lemma MarkingSameMoney(b: Book, symbol: string, price: real)
    ensures SameMoney(b, SetMark(b, symbol, price))
  {
    BalanceKept(b, DoMark(symbol, price));
    hide Balance;
  }

  lemma RecordingSameMoney(b: Book, ts: int)
    ensures SameMoney(b, Record(b, ts))
  {
    BalanceKept(b, DoRecord(ts));
    hide Balance, PointOf;
  }

  lemma {:induction false} LotsAfterSubmitAll(cfg: Config, s: Session, e: Event, signal: Signal, orders: seq<Order>)
    requires Names(s, s.pending) && Lots(s)
    requires forall o :: o in orders ==> o.quantity > EPS9
    ensures Lots(SubmitAll(cfg, s, e, signal, orders))
    decreases |orders|
  {
    if orders != [] {
      ScreenedWellFormed(cfg, s, e, signal, orders[0]);
      hide Screened, WellFormed, Charged;
      var s1 := Submit(cfg, s, e, signal, orders[0]);
      assert orders[0] in orders;
      LotsAfterSubmitAll(cfg, s1, e, signal, orders[1..]);
    }
  }

  lemma {:induction false} SubmitAllFrame(cfg: Config, s: Session, e: Event, signal: Signal, orders: seq<Order>)
    requires Names(s, s.pending)
    ensures var t := SubmitAll(cfg, s, e, signal, orders);
            && t.book == s.book && t.fills == s.fills && t.notes == s.notes && t.venue == s.venue && t.halt == s.halt
            && t.feed == s.feed && t.kill == s.kill && t.shown == s.shown && t.history == s.history
            && t.started == s.started && t.stopped == s.stopped
            && s.intents <= t.intents && s.pending <= t.pending
    decreases |orders|
  {
    hide Screened, Charged;
    if orders != [] {
      SubmitAllFrame(cfg, Submit(cfg, s, e, signal, orders[0]), e, signal, orders[1..]);
    }
  }

  lemma DecideKept(cfg: Config, strategy: Strategy, s: Session, e: Event, strict: bool)
    requires Kept(cfg, s, strict) && s.halt == None && Names(s, s.pending)
    requires strict ==> LotsAboveTolerance(strategy)
    ensures Kept(cfg, Decide(cfg, strategy, s, e), strict)
  {
    match strategy(s.shown)
    case Raises =>
      hide Balance;
      KeptFrame(cfg, s, Decide(cfg, strategy, s, e), strict);
    case Decision(signal, orders) =>
      SubmitAllFrame(cfg, s, e, signal, orders);
      var u := SubmitAll(cfg, s, e, signal, orders);
      if strict {
        LotsAfterSubmitAll(cfg, s, e, signal, orders);
      }
      hide SubmitAll, Balance, Money;
      RecordingSameMoney(u.book.book, e.bar.timestamp);
      KeptFrame(cfg, s, Decide(cfg, strategy, s, e), strict);
  }

  lemma EventKept(cfg: Config, strategy: Strategy, s: Session, e: Event, strict: bool)
    requires Fit(cfg, strict) && Alive(cfg, s) && Kept(cfg, s, strict)
    requires strict ==> LotsAboveTolerance(strategy)
    ensures Kept(cfg, ProcessEvent(cfg, strategy, s, e), strict)
  {
    assert ValidConfig(cfg);
    hide Life, QueueOk, Money, Lots, Decide, LotsAboveTolerance, Fit, ValidConfig;
    if Running(s) {
      AdmitLife(cfg, s, e);
      var s1 := Admit(cfg, s, e);
      assert s1 == s.(feed := s1.feed, halt := s1.halt);
      hide Admit;
      assert Kept(cfg, s1, strict) by { AdmitKept(cfg, s, s1, strict); }
      if s1.halt == None {
        PendingLife(cfg, s1, e);
        assert [] + s1.pending == s1.pending;
        KeptAfterQueue(cfg, s1, e, s1.pending, [], strict);
        var s2 := ExecutePending(cfg, s1, e);
        var q := ExecuteQueue(cfg, s1, e, s1.pending, []).0;
        assert s2 == q.(pending := s2.pending);
        hide ExecutePending, ExecuteQueue;
        PendingFieldKept(cfg, q, s2, strict);
        if s2.halt == None {
          var s3 := Observed(s2, e);
          ObservedKept(cfg, s2, e, strict);
          hide Observed;
          DecideKept(cfg, strategy, s3, e, strict);
        }
      }
    }
  }

  lemma ObservedKept(cfg: Config, s: Session, e: Event, strict: bool)
    requires Kept(cfg, s, strict) && s.halt == None
    ensures Kept(cfg, Observed(s, e), strict)
  {
    hide Money, Balance;
    MarkingSameMoney(s.book.book, e.bar.symbol, e.bar.close);
    KeptFrame(cfg, s, Observed(s, e), strict);
  }

  lemma AdmitKept(cfg: Config, s: Session, t: Session, strict: bool)
    requires Kept(cfg, s, strict) && t == s.(feed := t.feed, halt := t.halt)
    requires s.halt == None && t.halt != Some(LedgerRefused)
    ensures Kept(cfg, t, strict)
  {
    hide MirrorsFills, NoDebt, AllPositive, Balance, SequencedFills;
  }

  lemma PendingFieldKept(cfg: Config, s: Session, t: Session, strict: bool)
    requires Kept(cfg, s, strict) && t == s.(pending := t.pending)
    ensures Kept(cfg, t, strict)
  {
    hide MirrorsFills, NoDebt, AllPositive, Balance, SequencedFills;
  }

  lemma ObeyKept(cfg: Config, strategy: Strategy, s: Session, c: Command, strict: bool)
    requires Fit(cfg, strict) && Alive(cfg, s) && Kept(cfg, s, strict)
    requires strict ==> LotsAboveTolerance(strategy)
    ensures Kept(cfg, Obey(cfg, strategy, s, c), strict)
  {
    hide MirrorsFills, NoDebt, AllPositive, Balance, SequencedFills, ProcessEvent, Life, Fit, LotsAboveTolerance;
    match c
    case Tick(e) => EventKept(cfg, strategy, s, e, strict);
    case _ =>
  }

  lemma {:induction false} RunKept(cfg: Config, strategy: Strategy, s: Session, cs: seq<Command>, strict: bool)
    requires Fit(cfg, strict) && Alive(cfg, s) && Kept(cfg, s, strict)
    requires strict ==> LotsAboveTolerance(strategy)
    ensures Names(s, s.pending) && Kept(cfg, Run(cfg, strategy, s, cs), strict)
    decreases |cs|
  {
    assert ValidConfig(cfg);
    AliveNames(cfg, s);
    hide Alive, Kept, Obey, ValidConfig, Fit, LotsAboveTolerance;
    if cs != [] {
      ObeyLife(cfg, strategy, s, cs[0]);
      ObeyKept(cfg, strategy, s, cs[0], strict);
      RunKept(cfg, strategy, Obey(cfg, strategy, s, cs[0]), cs[1..], strict);
    }
  }

  lemma OpenedKept(cfg: Config, strict: bool)
    requires Fit(cfg, strict)
    ensures Kept(cfg, Opened(cfg), strict)
  {
    assert EntryValues(Fresh(cfg.initialCash)) == map[];
    assert forall s :: NetQuantity([], s) == 0.0;
  }

  // ---- the closing reconciliation

  lemma MoneyReconciles(cfg: Config, s: Session)
    requires Money(cfg, s) && s.halt != Some(LedgerRefused)
    ensures Reconciles(s.book, s.fills, cfg.initialCash, cfg.allowNegativeCash)
  {
    assert DistinctIds(s.fills);
    hide NetQuantity, NetCash, MarketValue, Balance, SequencedFills, DistinctIds;
    forall c
      ensures !Finding(c, s.book, s.fills, cfg.initialCash, cfg.allowNegativeCash, None, None)
    {
      match c
      case ImpossibleQuantity => assert !AnyImpossible(s.fills);
      case _ =>
    }
  }

  // After a refusal the one thing the reconciliation can object to is the cash the refused fill did not move.
  lemma RefusedReconciles(cfg: Config, s: Session)
    requires Money(cfg, s) && s.halt == Some(LedgerRefused)
    ensures forall c :: Finding(c, s.book, s.fills, cfg.initialCash, cfg.allowNegativeCash, None, None) <==>
              c == CashMismatch && Apart(s.fills[|s.fills| - 1].netCash, 0.0, EPS6)
  {
    var rest, f := s.fills[..|s.fills| - 1], s.fills[|s.fills| - 1];
    assert s.fills == rest + [f] && DistinctIds(s.fills) && !AnyImpossible(s.fills);
    Appended(rest, f, None);
    hide NetQuantity, NetCash, MarketValue, SequencedFills, DistinctIds, Quantity, LedgerIds, FillIds, AnyImpossible,
      Traded;
  }

  // Whatever the events, the strategy and the fill policy, and even when the run halts: either the closing
  // reconciliation reports no issue, and equity is initial cash plus realized and unrealized profit minus costs, or
  // the session halted on a ledger refusal; then its last fill bought no more than a holding that was short by at most
  // the tolerance, and the reconciliation objects to nothing but that fill's cash, and to that exactly when it is more
  // than 1e-6.
  lemma {:induction false} RunReconciles(cfg: Config, strategy: Strategy, cs: seq<Command>)
    requires ValidConfig(cfg) && SellsCovered(cfg.exec.costs)
    ensures var s := Run(cfg, strategy, Opened(cfg), cs);
            if s.halt == Some(LedgerRefused) then
              && DustRefused(s)
              && forall c :: Finding(c, s.book, s.fills, cfg.initialCash, cfg.allowNegativeCash, None, None) <==>
                   c == CashMismatch && Apart(s.fills[|s.fills| - 1].netCash, 0.0, EPS6)
            else
              && Reconciles(s.book, s.fills, cfg.initialCash, cfg.allowNegativeCash)
              && s.book.book.cash >= -EPS9
              && Equity(s.book.book) ==
                 cfg.initialCash + s.book.book.realized + Unrealized(s.book.book) - s.book.book.costs
  {
    OpenedAlive(cfg);
    OpenedKept(cfg, false);
    RunKept(cfg, strategy, Opened(cfg), cs, false);
    var s := Run(cfg, strategy, Opened(cfg), cs);
    if s.halt != Some(LedgerRefused) {
      MoneyReconciles(cfg, s);
    } else {
      RefusedReconciles(cfg, s);
    }
    EquitySplit(s.book.book);
    hide Run, Opened, SequencedFills, MirrorsFills, Reconciles, DustRefused, HoldsTheRest, Finding;
  }

  // All-or-nothing sessions whose strategy orders more than the tolerance are never refused by the ledger, so every
  // such run reconciles, halted or not.
  lemma {:induction false} EveryRunReconciles(cfg: Config, strategy: Strategy, cs: seq<Command>)
    requires ValidConfig(cfg) && SellsCovered(cfg.exec.costs) && FillsWhole(cfg)
    requires LotsAboveTolerance(strategy)
    ensures var s := Run(cfg, strategy, Opened(cfg), cs);
            && s.halt != Some(LedgerRefused)
            && Reconciles(s.book, s.fills, cfg.initialCash, cfg.allowNegativeCash)
  {
    var whole := AtOnce(cfg);
    SameRun(cfg, strategy, Opened(cfg), cs);
    OpenedAlive(whole);
    OpenedKept(whole, true);
    RunKept(whole, strategy, Opened(whole), cs, true);
    RunReconciles(cfg, strategy, cs);
    hide Run, Opened, Money, Reconciles, LotsAboveTolerance;
  }
}
