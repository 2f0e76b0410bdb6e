// When the profit replay of analytics/metrics.py can be trusted: exactly as long as no sale leaves dust or goes below
// zero, because after one that does, some ordinary continuation is misreported.

module ReplayTrust {
  import opened Trading
  import opened Ledger
  import opened TradeReplay

  // The ledger accepts every fill.
  ghost predicate AllTaken(b: Book, fills: seq<Fill>)
    decreases |fills|
  {
    fills == [] || (ValidFill(fills[0]) && !Refuses(b, fills[0]) && AllTaken(AfterFill(b, fills[0]), fills[1..]))
  }

  // What the replay reports beyond the ledger's realized profit net of sale costs.
  function Gap(b: Book, r: Replay): real {
    Total(r.pnls) - (b.realized - SellCosts(b.fills))
  }

  ghost predicate Recovers(initial: real, fills: seq<Fill>)
    requires AllValid(fills)
  {
    Gap(Filled(Fresh(initial), fills), ReplayAll(NOTHING, fills)) == 0.0
  }

  // Clean fills after a prefix are reported rightly.
  ghost predicate TrustedOn(initial: real, prefix: seq<Fill>, more: seq<Fill>) {
    AllClean(Filled(Fresh(initial), prefix), more) && AllValid(prefix + more) ==> Recovers(initial, prefix + more)
  }

  // ---- sequences of fills

  lemma {:induction false} FilledAppend(b: Book, xs: seq<Fill>, ys: seq<Fill>)
    ensures Filled(b, xs + ys) == Filled(Filled(b, xs), ys)
    decreases |xs|
  {
    hide AfterFill;
    if xs == [] {
      assert xs + ys == ys;
    } else {
      FilledAppend(AfterFill(b, xs[0]), xs[1..], ys);
      assert (xs + ys)[1..] == xs[1..] + ys;
    }
  }

  lemma {:induction false} ReplayAppend(r: Replay, xs: seq<Fill>, ys: seq<Fill>)
    requires AllValid(xs) && AllValid(ys)
    ensures AllValid(xs + ys) && ReplayAll(r, xs + ys) == ReplayAll(ReplayAll(r, xs), ys)
    decreases |xs|
  {
    hide ReplayFill;
    if xs == [] {
      assert xs + ys == ys;
    } else {
      ReplayAppend(ReplayFill(r, xs[0]), xs[1..], ys);
      assert (xs + ys)[1..] == xs[1..] + ys;
    }
  }

  lemma {:induction false} CleanAppend(b: Book, xs: seq<Fill>, ys: seq<Fill>)
    requires AllClean(b, xs) && AllClean(Filled(b, xs), ys)
    ensures AllClean(b, xs + ys)
    decreases |xs|
  {
    hide AfterFill, Clean;
    if xs == [] {
      assert xs + ys == ys;
    } else {
      CleanAppend(AfterFill(b, xs[0]), xs[1..], ys);
      assert (xs + ys)[1..] == xs[1..] + ys;
    }
  }

  lemma {:induction false} CleanPrefix(b: Book, xs: seq<Fill>, n: nat)
    requires AllClean(b, xs) && n <= |xs|
    ensures AllClean(b, xs[..n])
    decreases |xs|
  {
    hide AfterFill, Clean;
    if n > 0 {
      CleanPrefix(AfterFill(b, xs[0]), xs[1..], n - 1);
      assert xs[..n][1..] == xs[1..][..n - 1];
    }
  }

  // The first fill that is accepted but not clean.
  lemma {:induction false} FirstUnclean(b: Book, xs: seq<Fill>) returns (n: nat)
    requires AllTaken(b, xs) && !AllClean(b, xs)
    ensures n < |xs| && AllClean(b, xs[..n])
    ensures !Clean(Filled(b, xs[..n]), xs[n]) && ValidFill(xs[n]) && !Refuses(Filled(b, xs[..n]), xs[n])
    decreases |xs|
  {
    hide AfterFill, Clean, Refuses;
    if !Clean(b, xs[0]) {
      n := 0;
      assert xs[..0] == [];
    } else {
      var m := FirstUnclean(AfterFill(b, xs[0]), xs[1..]);
      n := m + 1;
      assert xs[..n][1..] == xs[1..][..m] && xs[..n][0] == xs[0];
    }
  }

  // ---- the gap, one fill at a time

  lemma TotalAppend(xs: seq<real>, x: real)
    ensures Total(xs + [x]) == Total(xs) + x
  {
    assert (xs + [x])[..|xs|] == xs;
  }

  lemma SellCostsAppend(xs: seq<Fill>, f: Fill)
    ensures SellCosts(xs + [f]) == SellCosts(xs) + (if f.side == Sell then f.transactionCost else 0.0)
  {
    assert (xs + [f])[..|xs|] == xs;
  }

  // What the replay takes as the entry price of a sale.
  function ReplayEntry(r: Replay, f: Fill): real {
    if f.symbol in r.averages then r.averages[f.symbol] else f.price
  }

  // A buy moves no gap; a sale moves it by the difference of the two entry prices.
  lemma GapStep(b: Book, r: Replay, f: Fill)
    requires ValidFill(f) && !Refuses(b, f)
    ensures Gap(AfterFill(b, f), ReplayFill(r, f)) ==
            Gap(b, r) + (if f.side == Buy then 0.0
                         else Value(f.quantity, Holding(b, f.symbol).average - ReplayEntry(r, f)))
  {
    SellCostsAppend(b.fills, f);
    if f.side == Sell {
      TotalAppend(r.pnls, NetGain(f, ReplayEntry(r, f)));
      GainDifference(f, Holding(b, f.symbol), ReplayEntry(r, f));
    }
    hide Value, NetGain, GainOf, SlippageOf, HoldingAfter, Total, SellCosts;
  }

  lemma GainDifference(f: Fill, p: Position, entry: real)
    ensures NetGain(f, entry) - (GainOf(p, f) - f.transactionCost) == Value(f.quantity, p.average - entry)
  {
  }

  // ---- averages stay positive

  ghost predicate Priced(b: Book) {
    forall s :: PricedHolding(Holding(b, s))
  }

  predicate PricedHolding(p: Position) {
    p.quantity >= 0.0 && p.average >= 0.0 && (p.quantity > 0.0 ==> p.average > 0.0)
  }

  lemma PricedAfter(p: Position, f: Fill)
    requires PricedHolding(p) && ValidFill(f)
    requires f.side == Sell ==> p.quantity == f.quantity || p.quantity - f.quantity > RESET
    ensures PricedHolding(HoldingAfter(p, f))
  {
    if f.side == Buy && p.quantity > 0.0 {
      ValuePositive(p.quantity, p.average);
      ValuePositive(f.quantity, f.price);
      QuotientPositive(Value(p.quantity, p.average) + Value(f.quantity, f.price), p.quantity + f.quantity);
    }
    hide Value;
  }

  lemma QuotientPositive(n: real, d: real)
    requires n > 0.0 && d > 0.0
    ensures n / d > 0.0
  {
  }

  lemma {:induction false} PricedAll(b: Book, fills: seq<Fill>)
    requires Priced(b) && AllClean(b, fills)
    ensures Priced(Filled(b, fills))
    decreases |fills|
  {
    if fills != [] {
      var f, b' := fills[0], AfterFill(b, fills[0]);
      forall s
        ensures PricedHolding(Holding(b', s))
      {
        assert PricedHolding(Holding(b, s)) && PricedHolding(Holding(b, f.symbol));
        if s == f.symbol {
          PricedAfter(Holding(b, s), f);
        }
        hide HoldingAfter, PricedHolding;
      }
      hide AfterFill, Clean, Priced;
      PricedAll(b', fills[1..]);
    }
  }

  // ---- an unclean sale misleads some clean continuation

  // A fill without costs.
  function Free(n: nat, symbol: string, side: Side, quantity: real, price: real): (f: Fill)
    ensures BalancedFill(f) && f.symbol == symbol && f.side == side && f.quantity == quantity && f.price == price
    ensures quantity > 0.0 && price > 0.0 ==> ValidFill(f)
  {
    Fill(Uuid(n), Uuid(n), n, symbol, side, quantity, price, 0.0, 0.0, Value(quantity, price),
         if side == Buy then -Value(quantity, price) else Value(quantity, price))
  }

  // Selling all there is, is clean.
  lemma SellAllClean(b: Book, g: Fill)
    requires ValidFill(g) && g.side == Sell && g.quantity == Quantity(b, g.symbol)
    ensures Clean(b, g) && !Refuses(b, g)
  {
  }

  lemma OneMoreFill(b: Book, r: Replay, g: Fill)
    requires ValidFill(g)
    ensures AllValid([g]) && Filled(b, [g]) == AfterFill(b, g) && ReplayAll(r, [g]) == ReplayFill(r, g)
    ensures Clean(b, g) ==> AllClean(b, [g])
  {
    hide AfterFill, ReplayFill, Clean;
    assert [g][1..] == [];
    assert Filled(AfterFill(b, g), []) == AfterFill(b, g) && ReplayAll(ReplayFill(r, g), []) == ReplayFill(r, g);
  }

  lemma TwoMoreFills(b: Book, r: Replay, f: Fill, g: Fill)
    requires ValidFill(f) && ValidFill(g)
    ensures var b1, r1 := AfterFill(b, f), ReplayFill(r, f);
            && AllValid([f, g]) && Filled(b, [f, g]) == AfterFill(b1, g) && ReplayAll(r, [f, g]) == ReplayFill(r1, g)
            && (Clean(b, f) && Clean(b1, g) ==> AllClean(b, [f, g]))
  {
    hide AfterFill, ReplayFill, Clean;
    OneMoreFill(AfterFill(b, f), ReplayFill(r, f), g);
    assert [f, g][1..] == [g];
  }

  // Selling what dust is left: the replay has forgotten its entry price.
  lemma DustSold(b: Book, r: Replay, symbol: string, price: real, n: nat)
    requires 0.0 < Quantity(b, symbol) && Holding(b, symbol).average > 0.0 && price > 0.0
    requires symbol in r.averages && r.averages[symbol] == 0.0
    ensures var more := [Free(n, symbol, Sell, Quantity(b, symbol), price)];
            && AllValid(more) && AllClean(b, more)
            && Gap(Filled(b, more), ReplayAll(r, more)) > Gap(b, r)
  {
    hide AfterFill, ReplayFill, Gap, Value, Free, Refuses, Clean, Filled, ReplayAll, AllClean;
    var g := Free(n, symbol, Sell, Quantity(b, symbol), price);
    SellAllClean(b, g);
    GapStep(b, r, g);
    ValuePositive(g.quantity, Holding(b, symbol).average);
    OneMoreFill(b, r, g);
  }

  // Buying one and selling all at one price, with the ledger below zero and the replay at zero.
  function RoundTrip(b: Book, symbol: string, price: real, n: nat): seq<Fill> {
    [Free(n, symbol, Buy, 1.0, price), Free(n + 1, symbol, Sell, Quantity(b, symbol) + 1.0, price)]
  }

  // The book and the replay between the two fills.
  lemma HalfTrip(b: Book, r: Replay, symbol: string, price: real, n: nat)
    requires -1.0 < Quantity(b, symbol) < 0.0 && price > 0.0 && QuantityOf(r, symbol) == 0.0
    ensures var f := RoundTrip(b, symbol, price, n)[0];
            var b1, r1 := AfterFill(b, f), ReplayFill(r, f);
            && ValidFill(f) && Clean(b, f) && !Refuses(b, f)
            && Quantity(b1, symbol) == Quantity(b, symbol) + 1.0
            && Value(Quantity(b1, symbol), Holding(b1, symbol).average)
               == Value(Quantity(b, symbol), Holding(b, symbol).average) + price
            && symbol in r1.averages && r1.averages[symbol] == price
  {
    var f := RoundTrip(b, symbol, price, n)[0];
    EntryStep(Holding(b, symbol), f);
    assert Value(1.0, price) == price;
    hide HoldingAfter, Value;
    assert Holding(AfterFill(b, f), symbol) == HoldingAfter(Holding(b, symbol), f);
    assert HoldingAfter(Holding(b, symbol), f).quantity == Quantity(b, symbol) + 1.0 by {
      BoughtOne(Holding(b, symbol), f);
    }
  }

  lemma BoughtOne(p: Position, f: Fill)
    requires f.side == Buy && p.quantity + f.quantity > 0.0
    ensures HoldingAfter(p, f).quantity == p.quantity + f.quantity
  {
    hide Value;
  }

  // The round trip's gap is what the ledger is short times the difference of the prices.
  lemma RoundTripGap(b: Book, r: Replay, symbol: string, price: real, n: nat)
    requires -1.0 < Quantity(b, symbol) < 0.0 && price > 0.0 && QuantityOf(r, symbol) == 0.0
    ensures var more := RoundTrip(b, symbol, price, n);
            && AllValid(more) && AllClean(b, more)
            && Gap(Filled(b, more), ReplayAll(r, more)) ==
               Gap(b, r) + Value(Quantity(b, symbol), Holding(b, symbol).average - price)
  {
    hide AfterFill, ReplayFill, Gap, Value, Free, Refuses, Clean, Filled, ReplayAll, AllClean;
    var f, g := Free(n, symbol, Buy, 1.0, price), Free(n + 1, symbol, Sell, Quantity(b, symbol) + 1.0, price);
    var b1, r1 := AfterFill(b, f), ReplayFill(r, f);
    assert RoundTrip(b, symbol, price, n) == [f, g];
    HalfTrip(b, r, symbol, price, n);
    GapStep(b, r, f);
    SellAllClean(b1, g);
    GapStep(b1, r1, g);
    TripArithmetic(Quantity(b, symbol), Holding(b, symbol).average, Holding(b1, symbol).average, price);
    TwoMoreFills(b, r, f, g);
  }

  lemma TripArithmetic(short: real, average: real, after: real, price: real)
    requires Value(short + 1.0, after) == Value(short, average) + price
    ensures Value(short + 1.0, after - price) == Value(short, average - price)
  {
  }

  // After an unclean sale, from books that agreed before it, some clean continuation is misreported.
  lemma Misled(b: Book, r: Replay, f: Fill) returns (more: seq<Fill>)
    requires Tracks(b, r) && Priced(b) && ValidFill(f) && !Refuses(b, f) && !Clean(b, f)
    ensures AllValid(more) && AllClean(AfterFill(b, f), more)
    ensures Gap(Filled(AfterFill(b, f), more), ReplayAll(ReplayFill(r, f), more)) != 0.0
  {
    var b1, r1 := AfterFill(b, f), ReplayFill(r, f);
    var symbol := f.symbol;
    UncleanSale(b, r, f);
    hide AfterFill, ReplayFill, Gap, Tracks, Priced;
    more := [];
    if Gap(b1, r1) == 0.0 {
      if Quantity(b1, symbol) > 0.0 {
        DustSold(b1, r1, symbol, f.price, 0);
        more := [Free(0, symbol, Sell, Quantity(b1, symbol), f.price)];
      } else {
        var price := Holding(b1, symbol).average + 1.0;
        RoundTripGap(b1, r1, symbol, price, 0);
        assert Value(Quantity(b1, symbol), Holding(b1, symbol).average - price) == -Quantity(b1, symbol);
        more := RoundTrip(b1, symbol, price, 0);
      }
    }
  }

  // What an unclean sale leaves: dust with a price, or a holding just below zero; the replay is back at nothing.
  lemma UncleanSale(b: Book, r: Replay, f: Fill)
    requires Tracks(b, r) && Priced(b) && ValidFill(f) && !Refuses(b, f) && !Clean(b, f)
    ensures var b1, r1 := AfterFill(b, f), ReplayFill(r, f);
            && -EPS9 <= Quantity(b1, f.symbol) <= RESET && Quantity(b1, f.symbol) != 0.0
            && Holding(b1, f.symbol).average >= 0.0
            && (Quantity(b1, f.symbol) > 0.0 ==> Holding(b1, f.symbol).average > 0.0)
            && QuantityOf(r1, f.symbol) == 0.0 && f.symbol in r1.averages && r1.averages[f.symbol] == 0.0
  {
    assert SameHolding(Holding(b, f.symbol), r, f.symbol) && PricedHolding(Holding(b, f.symbol));
    hide Value, GainOf, SlippageOf, NetGain, Tracks, Priced;
  }

  // The replay is right on every clean continuation of every prefix exactly when no sale ever left dust or went below
  // zero; each unclean sale is followed, in some continuation, by a misreported profit.
  lemma ReplayTrustedIff(initial: real, fills: seq<Fill>)
    requires AllTaken(Fresh(initial), fills) && AllValid(fills)
    ensures AllClean(Fresh(initial), fills) <==>
            forall n: nat, more: seq<Fill> :: n <= |fills| ==> TrustedOn(initial, fills[..n], more)
  {
    var b0 := Fresh(initial);
    if AllClean(b0, fills) {
      forall n: nat, more: seq<Fill> | n <= |fills|
        ensures TrustedOn(initial, fills[..n], more)
      {
        CleanContinuation(initial, fills, n, more);
      }
    } else {
      var n := FirstUnclean(b0, fills);
      var more := MisledAfter(initial, fills, n);
      assert !TrustedOn(initial, fills[..n + 1], more);
    }
  }

  lemma CleanContinuation(initial: real, fills: seq<Fill>, n: nat, more: seq<Fill>)
    requires AllClean(Fresh(initial), fills) && n <= |fills|
    ensures TrustedOn(initial, fills[..n], more)
  {
    var b0, prefix := Fresh(initial), fills[..n];
    CleanPrefix(b0, fills, n);
    if AllClean(Filled(b0, prefix), more) && AllValid(prefix + more) {
      CleanAppend(b0, prefix, more);
      ReplayRecoversRealized(initial, prefix + more);
    }
    hide AllClean, Filled, ReplayAll, SellCosts, Total;
  }

  lemma MisledAfter(initial: real, fills: seq<Fill>, n: nat) returns (more: seq<Fill>)
    requires AllValid(fills) && n < |fills| && AllClean(Fresh(initial), fills[..n])
    requires var b := Filled(Fresh(initial), fills[..n]); !Clean(b, fills[n]) && !Refuses(b, fills[n])
    ensures !TrustedOn(initial, fills[..n + 1], more)
  {
    var b0, p, f := Fresh(initial), fills[..n], fills[n];
    assert AllValid(p);
    assert Tracks(b0, NOTHING) && Priced(b0);
    FillsTracked(b0, NOTHING, p);
    PricedAll(b0, p);
    var b, r := Filled(b0, p), ReplayAll(NOTHING, p);
    hide Tracks, Priced, AllClean, Gap, Clean, Refuses, ReplayFill, AfterFill;
    more := Misled(b, r, f);
    assert fills[..n + 1] == p + [f] && AllValid([f]);
    FilledAppend(b0, p, [f]);
    ReplayAppend(NOTHING, p, [f]);
    assert [f][1..] == [];
    assert Filled(b, [f]) == Filled(AfterFill(b, f), []) && ReplayAll(r, [f]) == ReplayAll(ReplayFill(r, f), []);
    FilledAppend(b0, p + [f], more);
    ReplayAppend(NOTHING, p + [f], more);
    hide Filled, ReplayAll;
  }

  // ---- two literal ledgers

  const SLIVER := RESET / 2.0

  // Bought, sold but for a sliver, then the sliver, all at one price.
  const DUSTY: seq<Fill> :=
    [Free(0, "X", Buy, 1.0, 10.0), Free(1, "X", Sell, 1.0 - SLIVER, 10.0), Free(2, "X", Sell, SLIVER, 10.0)]

  const SHORT := -EPS9 / 2.0

  // Bought, oversold within the tolerance, then a round trip at another price.
  const OVERSOLD: seq<Fill> :=
    [Free(0, "X", Buy, 1.0, 10.0), Free(1, "X", Sell, 1.0 - SHORT, 10.0), Free(2, "X", Buy, 1.0, 11.0),
     Free(3, "X", Sell, SHORT + 1.0, 11.0)]

  // A book and a replay that hold one share bought at 10, without a gap.
  ghost predicate HoldsOne(b: Book, r: Replay) {
    && Holding(b, "X") == Position(1.0, 10.0) && QuantityOf(r, "X") == 1.0
    && "X" in r.averages && r.averages["X"] == 10.0 && Gap(b, r) == 0.0
  }

  // A rest left at 10 in the book and nothing in the replay, without a gap so far.
  ghost predicate LeavesRest(b: Book, r: Replay, rest: real) {
    && Holding(b, "X") == Position(rest, 10.0) && QuantityOf(r, "X") == 0.0
    && "X" in r.averages && r.averages["X"] == 0.0 && Gap(b, r) == 0.0
  }

  lemma BuyOne()
    ensures var f := Free(0, "X", Buy, 1.0, 10.0);
            !Refuses(Fresh(100.0), f) && HoldsOne(AfterFill(Fresh(100.0), f), ReplayFill(NOTHING, f))
  {
    hide AfterFill, ReplayFill, Refuses, Free, Gap, Value;
    var f := Free(0, "X", Buy, 1.0, 10.0);
    FirstBuyBook(f);
    FirstBuyReplay(f);
    NoGapYet();
    GapStep(Fresh(100.0), NOTHING, f);
  }

  lemma NoGapYet()
    ensures Gap(Fresh(100.0), NOTHING) == 0.0
  {
  }

  lemma FirstBuyBook(f: Fill)
    requires f.side == Buy && f.quantity == 1.0
    ensures !Refuses(Fresh(100.0), f) && Holding(AfterFill(Fresh(100.0), f), f.symbol) == Position(1.0, f.price)
  {
    hide SlippageOf, GainOf;
  }

  lemma FirstBuyReplay(f: Fill)
    requires f.side == Buy && ValidFill(f)
    ensures var r := ReplayFill(NOTHING, f);
            QuantityOf(r, f.symbol) == f.quantity && f.symbol in r.averages && r.averages[f.symbol] == f.price
  {
    hide Value, NetGain;
  }

  lemma SellBut(b: Book, r: Replay, rest: real)
    requires HoldsOne(b, r) && -EPS9 <= rest <= RESET && rest != 0.0
    ensures var g := Free(1, "X", Sell, 1.0 - rest, 10.0);
            !Refuses(b, g) && LeavesRest(AfterFill(b, g), ReplayFill(r, g), rest)
  {
    var g := Free(1, "X", Sell, 1.0 - rest, 10.0);
    GapStep(b, r, g);
    assert Value(1.0 - rest, 0.0) == 0.0;
    hide Gap, Value, GainOf, SlippageOf, NetGain;
  }

  lemma {:induction false} TakenClean(b: Book, fills: seq<Fill>)
    requires AllClean(b, fills)
    ensures AllTaken(b, fills)
    decreases |fills|
  {
    hide AfterFill;
    if fills != [] {
      TakenClean(AfterFill(b, fills[0]), fills[1..]);
    }
  }

  // Two fills and then a clean continuation.
  lemma AfterTwo(b: Book, r: Replay, f: Fill, g: Fill, more: seq<Fill>)
    requires ValidFill(f) && ValidFill(g) && AllValid(more) && !Refuses(b, f) && !Refuses(AfterFill(b, f), g)
    requires AllClean(AfterFill(AfterFill(b, f), g), more)
    ensures var b', r' := AfterFill(AfterFill(b, f), g), ReplayFill(ReplayFill(r, f), g);
            && AllValid([f, g] + more) && AllTaken(b, [f, g] + more)
            && Filled(b, [f, g] + more) == Filled(b', more) && ReplayAll(r, [f, g] + more) == ReplayAll(r', more)
  {
    var b' := AfterFill(AfterFill(b, f), g);
    TakenClean(b', more);
    hide AfterFill, ReplayFill, Refuses, AllClean;
    var all := [f, g] + more;
    assert all[1..] == [g] + more && all[1..][1..] == more;
    assert AllTaken(AfterFill(b, f), all[1..]);
  }

  // A clean continuation of a rest that has a gap.
  lemma RestMisleads(rest: real, more: seq<Fill>)
    requires -EPS9 <= rest <= RESET && rest != 0.0 && AllValid(more)
    requires forall b, r :: LeavesRest(b, r, rest) ==>
               AllClean(b, more) && Gap(Filled(b, more), ReplayAll(r, more)) != 0.0
    ensures var fills := [Free(0, "X", Buy, 1.0, 10.0), Free(1, "X", Sell, 1.0 - rest, 10.0)] + more;
            AllValid(fills) && AllTaken(Fresh(100.0), fills) && !Recovers(100.0, fills)
  {
    var f, g := Free(0, "X", Buy, 1.0, 10.0), Free(1, "X", Sell, 1.0 - rest, 10.0);
    assert ValidFill(f) && ValidFill(g);
    BuyOne();
    var b1, r1 := AfterFill(Fresh(100.0), f), ReplayFill(NOTHING, f);
    SellBut(b1, r1, rest);
    assert LeavesRest(AfterFill(b1, g), ReplayFill(r1, g), rest);
    hide *;
    AfterTwo(Fresh(100.0), NOTHING, f, g, more);
    Misreported([f, g] + more);
  }

  lemma Misreported(fills: seq<Fill>)
    requires AllValid(fills) && Gap(Filled(Fresh(100.0), fills), ReplayAll(NOTHING, fills)) != 0.0
    ensures !Recovers(100.0, fills)
  {
  }

  // Dust: the ledger accepted every fill, and the reported profit is not the realized one.
  lemma DustMisleadsReplay()
    ensures AllValid(DUSTY) && AllTaken(Fresh(100.0), DUSTY) && !Recovers(100.0, DUSTY)
  {
    var more := [Free(2, "X", Sell, SLIVER, 10.0)];
    forall b, r | LeavesRest(b, r, SLIVER)
      ensures AllClean(b, more) && AllValid(more) && Gap(Filled(b, more), ReplayAll(r, more)) != 0.0
    {
      DustSold(b, r, "X", 10.0, 2);
      hide Filled, ReplayAll, AllClean, Gap, Free;
    }
    assert DUSTY == [Free(0, "X", Buy, 1.0, 10.0), Free(1, "X", Sell, 1.0 - SLIVER, 10.0)] + more;
    assert AllValid(more);
    hide Filled, ReplayAll, AllClean, Gap, AllTaken, Recovers, LeavesRest, Free, AllValid;
    RestMisleads(SLIVER, more);
  }

  // A sale a little beyond the holding, which the ledger's tolerance lets pass.
  lemma OversellingMisleadsReplay()
    ensures AllValid(OVERSOLD) && AllTaken(Fresh(100.0), OVERSOLD) && !Recovers(100.0, OVERSOLD)
  {
    var more := [Free(2, "X", Buy, 1.0, 11.0), Free(3, "X", Sell, SHORT + 1.0, 11.0)];
    assert Value(SHORT, -1.0) == -SHORT;
    forall b, r | LeavesRest(b, r, SHORT)
      ensures AllClean(b, more) && AllValid(more) && Gap(Filled(b, more), ReplayAll(r, more)) != 0.0
    {
      RoundTripGap(b, r, "X", 11.0, 2);
      assert RoundTrip(b, "X", 11.0, 2) == more;
      hide Filled, ReplayAll, AllClean, Gap, Free, Value;
    }
    assert OVERSOLD == [Free(0, "X", Buy, 1.0, 10.0), Free(1, "X", Sell, 1.0 - SHORT, 10.0)] + more;
    assert AllValid(more);
    hide Filled, ReplayAll, AllClean, Gap, AllTaken, Recovers, LeavesRest, Free, AllValid;
    RestMisleads(SHORT, more);
  }
}
