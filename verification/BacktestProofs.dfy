// What the backtest loop guarantees over whole runs: no look-ahead, next-bar fills, exact accounting.

module BacktestProofs {
  import opened Trading
  import opened Costs
  import opened Ledger
  import opened Risk
  import opened Backtest
  import opened Strategies

  predicate SingleSymbol(bars: seq<Bar>, symbol: string) {
    forall i :: 0 <= i < |bars| ==> bars[i].symbol == symbol && ValidBar(bars[i])
  }

  // ---- placing orders touches only the pending slot and the log

  lemma {:induction false} PlaceAllKeeps(cfg: Config, bars: seq<Bar>, i: nat, s: State, orders: seq<Order>)
    requires i < |bars|
    ensures var r := PlaceAll(cfg, bars, i, s, orders);
            && (r.Ok? ==> r.value.(pending := s.pending, log := s.log) == s)
            && (r.Ok? && r.value.pending != s.pending ==>
                  && i + 1 < |bars| && bars[i + 1].timestamp > bars[i].timestamp
                  && r.value.pending.Some?
                  && r.value.pending.value.signalTs == bars[i].timestamp
                  && r.value.pending.value.order in orders
                  && CheckOrder(cfg.risk, r.value.pending.value.order, bars[i].close,
                                Quantity(s.book, bars[i].symbol), MarketValue(s.book)) == None)
            && (r.Err? ==> r.error == LookAhead && i + 1 < |bars| && bars[i + 1].timestamp <= bars[i].timestamp)
    decreases |orders|
  {
    hide CheckOrder, MarketValue, Quantity;
    if orders != [] {
      var r := Place(cfg, bars, i, s, orders[0]);
      if r.Ok? {
        PlaceAllKeeps(cfg, bars, i, r.value, orders[1..]);
      }
    }
  }

  // The loop's peek at the next bar reaches nothing but the pending slot and the log.
  ghost predicate SameObservations(r1: Result<State, Failure>, r2: Result<State, Failure>) {
    if r1.Ok? && r2.Ok? then
      r1.value.book == r2.value.book && r1.value.shown == r2.value.shown && r1.value.signals == r2.value.signals
    else r1 == r2
  }

  lemma StepObservations(cfg: Config, strategy: Strategy, b1: seq<Bar>, b2: seq<Bar>, i: nat, s: State)
    requires i < |b1| && i < |b2| && b1[..i + 1] == b2[..i + 1]
    requires Increasing(b1) && Increasing(b2)
    ensures SameObservations(Step(cfg, strategy, b1, i, s), Step(cfg, strategy, b2, i, s))
  {
    hide PlaceAll, FillPending, MarketValue;
    assert b1[i] == b1[..i + 1][i] == b2[i];
    var filled := FillPending(cfg, b1[i], s);
    if filled.Ok? {
      var seen := Observe(strategy, b1, i, filled.value);
      assert seen == Observe(strategy, b2, i, filled.value);
      if seen.Ok? {
        PlaceAllKeeps(cfg, b1, i, seen.value.0, seen.value.1);
        PlaceAllKeeps(cfg, b2, i, seen.value.0, seen.value.1);
      }
    }
  }

  lemma {:induction false} PlaceAllSame(cfg: Config, b1: seq<Bar>, b2: seq<Bar>, i: nat, s: State, orders: seq<Order>)
    requires i + 1 < |b1| && i + 1 < |b2| && b1[i] == b2[i] && b1[i + 1] == b2[i + 1]
    ensures PlaceAll(cfg, b1, i, s, orders) == PlaceAll(cfg, b2, i, s, orders)
    decreases |orders|
  {
    hide CheckOrder, MarketValue, Quantity;
    if orders != [] {
      var r := Place(cfg, b1, i, s, orders[0]);
      if r.Ok? {
        PlaceAllSame(cfg, b1, b2, i, r.value, orders[1..]);
      }
    }
  }

  lemma {:induction false} SharedPast(cfg: Config, strategy: Strategy, b1: seq<Bar>, b2: seq<Bar>, j: nat)
    requires j < |b1| && j < |b2| && b1[..j + 1] == b2[..j + 1]
    ensures After(cfg, strategy, b1, j) == After(cfg, strategy, b2, j)
  {
    hide PlaceAll, FillPending, MarketValue;
    if j > 0 {
      assert b1[..j] == b1[..j + 1][..j] == b2[..j];
      SharedPast(cfg, strategy, b1, b2, j - 1);
      assert b1[j] == b1[..j + 1][j] == b2[j] && b1[j - 1] == b1[..j + 1][j - 1] == b2[j - 1];
      if After(cfg, strategy, b1, j - 1).Ok? {
        var s := After(cfg, strategy, b1, j - 1).value;
        var filled := FillPending(cfg, b1[j - 1], s);
        if filled.Ok? {
          var seen := Observe(strategy, b1, j - 1, filled.value);
          assert seen == Observe(strategy, b2, j - 1, filled.value);
          if seen.Ok? {
            PlaceAllSame(cfg, b1, b2, j - 1, seen.value.0, seen.value.1);
          }
        }
      }
    }
  }

  // Two strictly increasing bar lists that share their first k bars are indistinguishable after those bars:
  // same contexts, signals, fills, cash, positions and equity points, or the same failure.
  lemma {:induction false} NoLookAhead(cfg: Config, strategy: Strategy, b1: seq<Bar>, b2: seq<Bar>, k: nat)
    requires k <= |b1| && k <= |b2| && b1[..k] == b2[..k]
    requires Increasing(b1) && Increasing(b2)
    ensures SameObservations(After(cfg, strategy, b1, k), After(cfg, strategy, b2, k))
  {
    hide Step, Increasing;
    if k == 0 {
      assert After(cfg, strategy, b1, 0) == Ok(Start(cfg)) == After(cfg, strategy, b2, 0);
    } else {
      hide After, SameObservations;
      var j := k - 1;
      assert b1[..j + 1] == b2[..j + 1];
      SharedPast(cfg, strategy, b1, b2, j);
      SharedLastBar(cfg, strategy, b1, b2, j);
    }
  }

  lemma {:induction false} SharedLastBar(cfg: Config, strategy: Strategy, b1: seq<Bar>, b2: seq<Bar>, j: nat)
    requires j < |b1| && j < |b2| && b1[..j + 1] == b2[..j + 1]
    requires Increasing(b1) && Increasing(b2)
    requires After(cfg, strategy, b1, j) == After(cfg, strategy, b2, j)
    ensures SameObservations(After(cfg, strategy, b1, j + 1), After(cfg, strategy, b2, j + 1))
  {
    hide Step, Increasing;
    if After(cfg, strategy, b1, j).Ok? {
      StepObservations(cfg, strategy, b1, b2, j, After(cfg, strategy, b1, j).value);
    }
  }

  // ---- every fill is one bar after its signal

  // f fills, at bar i's open, an order the strategy emitted at bar i - 1.
  ghost predicate FilledAt(cfg: Config, strategy: Strategy, bars: seq<Bar>, shown: seq<Context>, f: Fill, i: nat) {
    && 1 <= i < |bars| && i <= |shown|
    && strategy(shown[..i]).Decision?
    && exists o :: o in strategy(shown[..i]).orders
                   && Execute(cfg, o, f.id, bars[i].timestamp, bars[i].open) == Some(f)
  }

  ghost predicate Explained(cfg: Config, strategy: Strategy, bars: seq<Bar>, k: nat, shown: seq<Context>, f: Fill) {
    exists i: nat :: i < k && FilledAt(cfg, strategy, bars, shown, f, i)
  }

  ghost predicate FillsExplained(cfg: Config, strategy: Strategy, bars: seq<Bar>, k: nat, s: State)
    requires k <= |bars|
  {
    && (forall j :: 0 <= j < |s.book.fills| ==>
          Explained(cfg, strategy, bars, k, s.shown, s.book.fills[j]))
    && (forall j, l :: 0 <= j < l < |s.book.fills| ==> s.book.fills[j].timestamp < s.book.fills[l].timestamp)
  }

  ghost predicate ShownExactly(strategy: Strategy, bars: seq<Bar>, k: nat, s: State)
    requires k <= |bars|
  {
    && |s.shown| == k && |s.signals| == k && |s.book.curve| == k
    && forall j :: 0 <= j < k ==>
         && s.shown[j].timestamp == bars[j].timestamp
         && s.shown[j].symbol == bars[j].symbol
         && s.shown[j].history == bars[..j + 1]
         && s.book.curve[j].timestamp == bars[j].timestamp
         && strategy(s.shown[..j + 1]).Decision?
         && strategy(s.shown[..j + 1]).signal == s.signals[j]
  }

  ghost predicate PendingFresh(strategy: Strategy, bars: seq<Bar>, k: nat, s: State)
    requires k <= |bars|
  {
    s.pending.Some? ==>
      && 1 <= k < |bars| && |s.shown| == k
      && s.pending.value.signalTs == bars[k - 1].timestamp
      && strategy(s.shown).Decision?
      && s.pending.value.order in strategy(s.shown).orders
  }

  lemma FillStepExplained(cfg: Config, strategy: Strategy, bars: seq<Bar>, k: nat, s: State)
    requires k < |bars| && Increasing(bars)
    requires ShownExactly(strategy, bars, k, s) && PendingFresh(strategy, bars, k, s)
    requires FillsExplained(cfg, strategy, bars, k, s)
    requires FillPending(cfg, bars[k], s).Ok?
    ensures var s' := FillPending(cfg, bars[k], s).value;
            && s'.pending == None && s'.shown == s.shown && s'.signals == s.signals && s'.book.curve == s.book.curve
            && FillsExplained(cfg, strategy, bars, k + 1, s')
  {
    hide Execute, HoldingAfter, GainOf, SlippageOf, Refuses, Unaffordable;
    var s' := FillPending(cfg, bars[k], s).value;
    forall j | 0 <= j < |s.book.fills|
      ensures Explained(cfg, strategy, bars, k + 1, s'.shown, s.book.fills[j])
      ensures s.book.fills[j].timestamp < bars[k].timestamp
    {
      assert Explained(cfg, strategy, bars, k, s.shown, s.book.fills[j]);
      var i: nat :| i < k && FilledAt(cfg, strategy, bars, s.shown, s.book.fills[j], i);
      ExecutedAt(cfg, strategy, bars, s.shown, s.book.fills[j], i);
      assert FilledAt(cfg, strategy, bars, s'.shown, s.book.fills[j], i);
    }
    if |s'.book.fills| > |s.book.fills| {
      var f := s'.book.fills[|s.book.fills|];
      assert s'.book.fills == s.book.fills + [f];
      assert s.shown[..k] == s.shown;
      assert Execute(cfg, s.pending.value.order, Uuid(|s.book.fills|), bars[k].timestamp, bars[k].open) == Some(f);
      ExecuteStamps(cfg, s.pending.value.order, Uuid(|s.book.fills|), bars[k].timestamp, bars[k].open);
      assert FilledAt(cfg, strategy, bars, s'.shown, f, k);
    } else {
      assert s'.book.fills == s.book.fills;
    }
  }

  lemma ExecuteStamps(cfg: Config, o: Order, id: Id, at: int, open: real)
    requires Execute(cfg, o, id, at, open).Some?
    ensures var f := Execute(cfg, o, id, at, open).value;
            f.timestamp == at && f.id == id && f.quantity == o.quantity && f.symbol == o.symbol && f.side == o.side
            && ValidFill(f) && BalancedFill(f)
  {
    hide Slip, CostOf, Value;
  }

  lemma ExecutedAt(cfg: Config, strategy: Strategy, bars: seq<Bar>, shown: seq<Context>, f: Fill, i: nat)
    requires FilledAt(cfg, strategy, bars, shown, f, i)
    ensures f.timestamp == bars[i].timestamp
  {
    hide Execute;
    var o :| o in strategy(shown[..i]).orders && Execute(cfg, o, f.id, bars[i].timestamp, bars[i].open) == Some(f);
    ExecuteStamps(cfg, o, f.id, bars[i].timestamp, bars[i].open);
  }

  lemma FillsExplainedExtend(cfg: Config, strategy: Strategy, bars: seq<Bar>, k: nat, s: State, s': State)
    requires k <= |bars| && FillsExplained(cfg, strategy, bars, k, s)
    requires s'.book.fills == s.book.fills && |s.shown| <= |s'.shown| && s'.shown[..|s.shown|] == s.shown
    ensures FillsExplained(cfg, strategy, bars, k, s')
  {
    forall j | 0 <= j < |s'.book.fills|
      ensures Explained(cfg, strategy, bars, k, s'.shown, s'.book.fills[j])
    {
      assert Explained(cfg, strategy, bars, k, s.shown, s.book.fills[j]);
      var i: nat :| i < k && FilledAt(cfg, strategy, bars, s.shown, s.book.fills[j], i);
      assert s'.shown[..i] == s.shown[..i];
      assert FilledAt(cfg, strategy, bars, s'.shown, s'.book.fills[j], i);
    }
  }

  lemma StepExplained(cfg: Config, strategy: Strategy, bars: seq<Bar>, k: nat, s: State)
    requires k < |bars| && Increasing(bars)
    requires ShownExactly(strategy, bars, k, s) && PendingFresh(strategy, bars, k, s)
    requires FillsExplained(cfg, strategy, bars, k, s)
    requires Step(cfg, strategy, bars, k, s).Ok?
    ensures var s' := Step(cfg, strategy, bars, k, s).value;
            && ShownExactly(strategy, bars, k + 1, s') && PendingFresh(strategy, bars, k + 1, s')
            && FillsExplained(cfg, strategy, bars, k + 1, s')
  {
    hide PlaceAll, FillPending, MarketValue, FilledAt, CheckOrder;
    var s' := Step(cfg, strategy, bars, k, s).value;
    FillStepExplained(cfg, strategy, bars, k, s);
    var s1 := FillPending(cfg, bars[k], s).value;
    var (s2, orders) := Observe(strategy, bars, k, s1).value;
    PlaceAllKeeps(cfg, bars, k, s2, orders);
    assert s'.shown == s.shown + [ContextAt(bars, k, s2.book)];
    assert s'.shown[..k] == s.shown && s'.shown[..k + 1] == s'.shown;
    assert forall j {:trigger s.shown[j]} :: 0 <= j < k ==> s'.shown[..j + 1] == s.shown[..j + 1];
    FillsExplainedExtend(cfg, strategy, bars, k + 1, s1, s');
  }

  lemma {:induction false} RunExplained(cfg: Config, strategy: Strategy, bars: seq<Bar>, k: nat)
    requires k <= |bars| && Increasing(bars) && After(cfg, strategy, bars, k).Ok?
    ensures var s := After(cfg, strategy, bars, k).value;
            && ShownExactly(strategy, bars, k, s) && PendingFresh(strategy, bars, k, s)
            && FillsExplained(cfg, strategy, bars, k, s)
  {
    hide Step;
    if k > 0 {
      RunExplained(cfg, strategy, bars, k - 1);
      StepExplained(cfg, strategy, bars, k - 1, After(cfg, strategy, bars, k - 1).value);
    }
  }

  // ---- later bars only append

  ghost predicate Extends(s: State, t: State) {
    s.signals <= t.signals && s.shown <= t.shown && s.book.curve <= t.book.curve && s.book.fills <= t.book.fills
  }

  lemma StepExtends(cfg: Config, strategy: Strategy, bars: seq<Bar>, i: nat, s: State)
    requires i < |bars| && Step(cfg, strategy, bars, i, s).Ok?
    ensures Extends(s, Step(cfg, strategy, bars, i, s).value)
  {
    hide PlaceAll, Execute, MarketValue, CheckOrder, HoldingAfter;
    var s1 := FillPending(cfg, bars[i], s).value;
    var (s2, orders) := Observe(strategy, bars, i, s1).value;
    PlaceAllKeeps(cfg, bars, i, s2, orders);
  }

  lemma {:induction false} RunExtends(cfg: Config, strategy: Strategy, bars: seq<Bar>, k: nat, n: nat)
    requires k <= n <= |bars| && After(cfg, strategy, bars, n).Ok?
    ensures After(cfg, strategy, bars, k).Ok?
    ensures Extends(After(cfg, strategy, bars, k).value, After(cfg, strategy, bars, n).value)
    decreases n
  {
    hide Step;
    if k < n {
      RunExtends(cfg, strategy, bars, k, n - 1);
      StepExtends(cfg, strategy, bars, n - 1, After(cfg, strategy, bars, n - 1).value);
    }
  }

  lemma {:induction false} LateFills(cfg: Config, strategy: Strategy, bars: seq<Bar>, k: nat, f: Fill)
    requires 0 < k <= |bars| && Increasing(bars) && After(cfg, strategy, bars, |bars|).Ok?
    requires f.timestamp <= bars[k - 1].timestamp
    ensures After(cfg, strategy, bars, k).Ok?
    ensures f in After(cfg, strategy, bars, |bars|).value.book.fills <==>
            f in After(cfg, strategy, bars, k).value.book.fills
  {
    RunExtends(cfg, strategy, bars, k, |bars|);
    var s, t := After(cfg, strategy, bars, k).value, After(cfg, strategy, bars, |bars|).value;
    hide After;
    if f in t.book.fills && f !in s.book.fills {
      LateFillsTail(cfg, strategy, bars, k, |bars|, f);
    }
  }

  lemma {:induction false} LateFillsTail(cfg: Config, strategy: Strategy, bars: seq<Bar>, k: nat, n: nat, f: Fill)
    requires 0 < k <= n <= |bars| && Increasing(bars) && After(cfg, strategy, bars, n).Ok?
    requires After(cfg, strategy, bars, k).Ok?
    requires f in After(cfg, strategy, bars, n).value.book.fills
    requires f !in After(cfg, strategy, bars, k).value.book.fills
    ensures f.timestamp > bars[k - 1].timestamp
    decreases n
  {
    hide Step;
    var s := After(cfg, strategy, bars, n - 1).value;
    if f in s.book.fills {
      LateFillsTail(cfg, strategy, bars, k, n - 1, f);
    } else {
      NewFillStamp(cfg, strategy, bars, n - 1, s, f);
    }
  }

  lemma NewFillStamp(cfg: Config, strategy: Strategy, bars: seq<Bar>, i: nat, s: State, f: Fill)
    requires i < |bars| && Step(cfg, strategy, bars, i, s).Ok?
    requires f !in s.book.fills && f in Step(cfg, strategy, bars, i, s).value.book.fills
    ensures f.timestamp == bars[i].timestamp
  {
    hide PlaceAll, Execute, MarketValue, CheckOrder, HoldingAfter;
    var s1 := FillPending(cfg, bars[i], s).value;
    var (s2, orders) := Observe(strategy, bars, i, s1).value;
    PlaceAllKeeps(cfg, bars, i, s2, orders);
    ExecuteStamps(cfg, s.pending.value.order, Uuid(|s.book.fills|), bars[i].timestamp, bars[i].open);
  }

  // The complete runs agree on their first k signals, contexts and equity points and on every fill within the
  // first k bars.
  lemma {:induction false} NoLookAheadInResults(cfg: Config, strategy: Strategy, b1: seq<Bar>, b2: seq<Bar>, k: nat)
    requires 0 < k <= |b1| && k <= |b2| && b1[..k] == b2[..k]
    requires Increasing(b1) && Increasing(b2)
    requires After(cfg, strategy, b1, |b1|).Ok? && After(cfg, strategy, b2, |b2|).Ok?
    ensures var s1 := After(cfg, strategy, b1, |b1|).value;
            var s2 := After(cfg, strategy, b2, |b2|).value;
            && |s1.signals| >= k && |s2.signals| >= k && s1.signals[..k] == s2.signals[..k]
            && |s1.shown| >= k && |s2.shown| >= k && s1.shown[..k] == s2.shown[..k]
            && |s1.book.curve| >= k && |s2.book.curve| >= k && s1.book.curve[..k] == s2.book.curve[..k]
            && forall f: Fill :: f.timestamp <= b1[k - 1].timestamp ==> (f in s1.book.fills <==> f in s2.book.fills)
  {
    RunExtends(cfg, strategy, b1, k, |b1|);
    RunExtends(cfg, strategy, b2, k, |b2|);
    NoLookAhead(cfg, strategy, b1, b2, k);
    RunExplained(cfg, strategy, b1, k);
    SharedPrefix(After(cfg, strategy, b1, k).value, After(cfg, strategy, b2, k).value,
                 After(cfg, strategy, b1, |b1|).value, After(cfg, strategy, b2, |b2|).value, k);
    assert b1[k - 1] == b1[..k][k - 1] == b2[k - 1];
    hide After, ShownExactly, FillsExplained, PendingFresh, Increasing, Extends;
    forall f: Fill | f.timestamp <= b1[k - 1].timestamp
      ensures f in After(cfg, strategy, b1, |b1|).value.book.fills <==>
              f in After(cfg, strategy, b2, |b2|).value.book.fills
    {
      LateFills(cfg, strategy, b1, k, f);
      LateFills(cfg, strategy, b2, k, f);
    }
  }

  // States that observed the same k bars and were then extended share their first k observations.
  lemma SharedPrefix(s1: State, s2: State, t1: State, t2: State, k: nat)
    requires SameObservations(Ok(s1), Ok(s2)) && Extends(s1, t1) && Extends(s2, t2)
    requires |s1.shown| == |s1.signals| == |s1.book.curve| == k
    ensures |t1.signals| >= k && |t2.signals| >= k && t1.signals[..k] == t2.signals[..k]
    ensures |t1.shown| >= k && |t2.shown| >= k && t1.shown[..k] == t2.shown[..k]
    ensures |t1.book.curve| >= k && |t2.book.curve| >= k && t1.book.curve[..k] == t2.book.curve[..k]
  {
    assert t1.signals[..k] == s1.signals == t2.signals[..k];
    assert t1.shown[..k] == s1.shown == t2.shown[..k];
    assert t1.book.curve[..k] == s1.book.curve == t2.book.curve[..k];
  }

  // ---- accounting, and when a run cannot fail

  // Cash and the single position stay above the tolerance, and the books balance to the initial cash.
  ghost predicate Sound(cfg: Config, symbol: string, s: State) {
    && s.book.cash >= -EPS9
    && Quantity(s.book, symbol) >= -EPS9
    && Balance(s.book) == cfg.initialCash
  }

  // What the risk filter leaves in the pending slot: an order for the symbol, of more than the least lot, whose sale is
  // covered within the tolerance.
  predicate Coverable(symbol: string, s: State, least: real) {
    s.pending.Some? ==>
      var o := s.pending.value.order;
      && o.symbol == symbol && o.quantity > least
      && (o.side == Sell ==> o.quantity <= Quantity(s.book, symbol) + EPS9)
  }

  // The pending order is an affordable buy of no more than the symbol is short.
  predicate ShortBuy(cfg: Config, bar: Bar, symbol: string, s: State) {
    && s.pending.Some?
    && var o := s.pending.value.order;
       && o.side == Buy && o.quantity <= -Quantity(s.book, symbol)
       && var f := Execute(cfg, o, Uuid(|s.book.fills|), bar.timestamp, bar.open);
          f.Some? && !Unaffordable(s.book, f.value)
  }

  lemma FillPendingSound(cfg: Config, bar: Bar, symbol: string, s: State, least: real)
    requires 0.0 <= cfg.bps < 10000.0 && ValidBar(bar) && least >= 0.0
    requires Sound(cfg, symbol, s) && Coverable(symbol, s, least)
    requires s.pending.Some? ==> s.pending.value.signalTs < bar.timestamp
    ensures var r := FillPending(cfg, bar, s);
            && (r.Err? <==> ShortBuy(cfg, bar, symbol, s)) && (r.Err? ==> r.error == ShortSale)
            && (r.Ok? ==> Sound(cfg, symbol, r.value) && r.value.pending == None)
  {
    if s.pending.Some? {
      var o := s.pending.value.order;
      var id := Uuid(|s.book.fills|);
      ExecuteSome(cfg, o, id, bar.timestamp, bar.open);
      ExecuteStamps(cfg, o, id, bar.timestamp, bar.open);
      hide Execute;
      var f := Execute(cfg, o, id, bar.timestamp, bar.open).value;
      assert Refuses(s.book, f) <==> o.side == Buy && o.quantity <= -Quantity(s.book, symbol);
      if !Refuses(s.book, f) {
        BalanceKept(s.book, DoFill(f));
        hide Balance, GainOf, SlippageOf, EntryOf, Value;
        assert Quantity(AfterFill(s.book, f), symbol) == PositionAfter(f.side, f.quantity, Quantity(s.book, symbol));
      }
    }
  }

  lemma ExecuteSome(cfg: Config, o: Order, id: Id, at: int, open: real)
    requires 0.0 <= cfg.bps < 10000.0 && open > 0.0 && o.quantity > 0.0
    ensures Execute(cfg, o, id, at, open).Some?
  {
    SlipPositive(cfg.bps, o.side, open);
    hide Slip, CostOf, Value;
  }

  lemma ObserveSound(cfg: Config, strategy: Strategy, bars: seq<Bar>, i: nat, symbol: string, s: State)
    requires i < |bars| && Increasing(bars) && NeverRaises(strategy) && Sound(cfg, symbol, s)
    ensures var r := Observe(strategy, bars, i, s);
            r.Ok? && Sound(cfg, symbol, r.value.0) && r.value.0.pending == s.pending
  {
    BalanceKept(s.book, DoMark(bars[i].symbol, bars[i].close));
    hide Balance;
    assert Quantity(SetMark(s.book, bars[i].symbol, bars[i].close), symbol) == Quantity(s.book, symbol);
  }

  lemma AcceptedIsCovered(cfg: RiskConfig, o: Order, refPrice: real, position: real, exposure: real)
    requires CheckOrder(cfg, o, refPrice, position, exposure) == None
    ensures o.side == Sell ==> o.quantity <= position + EPS9
  {
    hide Value;
  }

  lemma StepSound(cfg: Config, strategy: Strategy, bars: seq<Bar>, i: nat, symbol: string, s: State, least: real)
    requires i < |bars| && Increasing(bars) && SingleSymbol(bars, symbol)
    requires 0.0 <= cfg.bps < 10000.0 && least >= 0.0
    requires NeverRaises(strategy) && TradesContextSymbol(strategy) && LotsAbove(strategy, least)
    requires Sound(cfg, symbol, s) && Coverable(symbol, s, least)
    requires s.pending.Some? ==> s.pending.value.signalTs < bars[i].timestamp
    ensures var r := Step(cfg, strategy, bars, i, s);
            && (r.Err? <==> ShortBuy(cfg, bars[i], symbol, s)) && (r.Err? ==> r.error == ShortSale)
            && (r.Ok? ==>
                  && Sound(cfg, symbol, r.value) && Coverable(symbol, r.value, least)
                  && (r.value.pending.Some? ==>
                        i + 1 < |bars| && r.value.pending.value.signalTs < bars[i + 1].timestamp))
  {
    hide FillPending, PlaceAll, CheckOrder, MarketValue, Balance, ShortBuy;
    FillPendingSound(cfg, bars[i], symbol, s, least);
    if FillPending(cfg, bars[i], s).Ok? {
      var s1 := FillPending(cfg, bars[i], s).value;
      ObserveSound(cfg, strategy, bars, i, symbol, s1);
      var (s2, orders) := Observe(strategy, bars, i, s1).value;
      PlaceAllKeeps(cfg, bars, i, s2, orders);
      var s3 := PlaceAll(cfg, bars, i, s2, orders).value;
      assert s2.shown[|s2.shown| - 1].symbol == symbol;
      if s3.pending.Some? {
        var o := s3.pending.value.order;
        AcceptedIsCovered(cfg.risk, o, bars[i].close, Quantity(s2.book, symbol), MarketValue(s2.book));
      }
      BalanceKept(s3.book, DoRecord(bars[i].timestamp));
    }
  }

  // Bar k meets such a buy.
  ghost predicate FailsAt(cfg: Config, strategy: Strategy, bars: seq<Bar>, symbol: string, k: nat)
    requires k < |bars|
  {
    After(cfg, strategy, bars, k).Ok? && ShortBuy(cfg, bars[k], symbol, After(cfg, strategy, bars, k).value)
  }

  lemma {:induction false} PrefixSound(cfg: Config, strategy: Strategy, bars: seq<Bar>, k: nat, symbol: string,
                                       least: real)
    requires k <= |bars| && Increasing(bars) && SingleSymbol(bars, symbol)
    requires 0.0 <= cfg.bps < 10000.0 && cfg.initialCash >= 0.0 && least >= 0.0
    requires NeverRaises(strategy) && TradesContextSymbol(strategy) && LotsAbove(strategy, least)
    ensures var r := After(cfg, strategy, bars, k);
            && (r.Ok? ==>
                  && Sound(cfg, symbol, r.value) && Coverable(symbol, r.value, least)
                  && (k < |bars| && r.value.pending.Some? ==> r.value.pending.value.signalTs < bars[k].timestamp))
            && (r.Err? ==> r.error == ShortSale && exists j: nat :: j < k && FailsAt(cfg, strategy, bars, symbol, j))
  {
    hide Step, ShortBuy;
    if k == 0 {
      assert EntryValues(Fresh(cfg.initialCash)) == map[];
    } else {
      PrefixSound(cfg, strategy, bars, k - 1, symbol, least);
      var before := After(cfg, strategy, bars, k - 1);
      if before.Ok? {
        StepSound(cfg, strategy, bars, k - 1, symbol, before.value, least);
        assert After(cfg, strategy, bars, k).Err? ==> FailsAt(cfg, strategy, bars, symbol, k - 1);
      }
    }
  }

  // A single-symbol run over strictly increasing bars fails exactly when some bar meets an affordable buy of no more
  // than the symbol is short, which is never more than the tolerance; every other run stays above the tolerance in cash
  // and position, and its final equity is initial cash plus realized and unrealized profit minus costs.
  lemma RunFailsIff(cfg: Config, strategy: Strategy, bars: seq<Bar>, symbol: string)
    requires bars != [] && Increasing(bars) && SingleSymbol(bars, symbol)
    requires 0.0 <= cfg.bps < 10000.0 && cfg.initialCash >= 0.0
    requires NeverRaises(strategy) && TradesContextSymbol(strategy) && PositiveLots(strategy)
    ensures var r := RunResult(cfg, strategy, bars);
            && (r.Err? <==> exists k: nat :: k < |bars| && FailsAt(cfg, strategy, bars, symbol, k))
            && (r.Err? ==> r.error == ShortSale)
            && (r.Ok? ==>
                  && r.value.book.cash >= -EPS9 && Quantity(r.value.book, symbol) >= -EPS9
                  && Equity(r.value.book) ==
                     cfg.initialCash + r.value.book.realized + Unrealized(r.value.book) - r.value.book.costs)
  {
    PrefixSound(cfg, strategy, bars, |bars|, symbol, 0.0);
    assert Chronological(bars);
    hide After, ShortBuy, SingleSymbol;
    forall k: nat | k < |bars| && FailsAt(cfg, strategy, bars, symbol, k)
      ensures After(cfg, strategy, bars, |bars|).Err?
    {
      PrefixSound(cfg, strategy, bars, k, symbol, 0.0);
      var s := After(cfg, strategy, bars, k).value;
      StepSound(cfg, strategy, bars, k, symbol, s, 0.0);
      StepDecides(cfg, strategy, bars, k, s);
    }
    var r := RunResult(cfg, strategy, bars);
    if r.Ok? {
      EquitySplit(r.value.book);
    }
  }

  // In particular no run whose lots are above the tolerance fails.
  lemma RunNeverFails(cfg: Config, strategy: Strategy, bars: seq<Bar>, symbol: string)
    requires bars != [] && Increasing(bars) && SingleSymbol(bars, symbol)
    requires 0.0 <= cfg.bps < 10000.0 && cfg.initialCash >= 0.0
    requires NeverRaises(strategy) && TradesContextSymbol(strategy) && LotsAboveTolerance(strategy)
    ensures var r := RunResult(cfg, strategy, bars);
            && r.Ok?
            && r.value.book.cash >= -EPS9 && Quantity(r.value.book, symbol) >= -EPS9
            && Equity(r.value.book) ==
               cfg.initialCash + r.value.book.realized + Unrealized(r.value.book) - r.value.book.costs
  {
    RunFailsIff(cfg, strategy, bars, symbol);
    forall k: nat | k < |bars|
      ensures !FailsAt(cfg, strategy, bars, symbol, k)
    {
      PrefixSound(cfg, strategy, bars, k, symbol, EPS9);
      hide After, Execute, Unaffordable, Balance;
    }
  }
}
