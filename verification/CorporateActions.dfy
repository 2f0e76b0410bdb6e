// Splits, bonuses and dividends on the book: phase13/portfolio.py and data/corporate_actions/models.py.

module CorporateActions {
  import opened Trading
  import opened Ledger
  import opened Sums

  datatype Kind = Split | Bonus | Dividend | Merger | Demerger | Unhandled

  datatype Action = Action(id: string, symbol: string, kind: Kind, exDate: int, ratioNum: Option<real>,
                           ratioDen: Option<real>, amount: Option<real>)

  function SplitFactor(a: Action): Option<real> {
    if a.ratioNum == None || a.ratioDen == None || a.ratioDen.value == 0.0 then None
    else Some(a.ratioNum.value / a.ratioDen.value)
  }

  datatype Outcome = Applied | Skipped(why: string) | Blocked

  // A split or bonus with a usable factor that is not in the future.
  predicate Multiplies(a: Action, asOf: int) {
    && a.exDate <= asOf && a.kind in {Split, Bonus} && SplitFactor(a).Some? && SplitFactor(a).value > 0.0
  }

  function Scaled(p: Position, factor: real): Position
    requires factor > 0.0
  {
    Position(Value(p.quantity, factor), p.average / factor)
  }

  // What one action makes of the book, and how it is reported.
  function Act(b: Book, a: Action, asOf: int): (Book, Outcome) {
    var quantity := Quantity(b, a.symbol);
    if a.exDate > asOf then (b, Skipped("future"))
    else if a.kind in {Merger, Demerger} then (b, Skipped("manual_unsupported"))
    else if a.kind in {Split, Bonus} then
      if SplitFactor(a) == None || SplitFactor(a).value <= 0.0 then (b, Blocked)
      else if quantity == 0.0 then (b, Skipped("no_position"))
      else
        (b.(positions := b.positions[a.symbol := Scaled(b.positions[a.symbol], SplitFactor(a).value)]), Applied)
    else if a.kind == Dividend then
      if quantity <= 0.0 || a.amount == None then (b, Skipped("dividend_noop"))
      else (b.(cash := b.cash + Value(quantity, a.amount.value)), Applied)
    else (b, Skipped("unhandled"))
  }

  ghost function ActAll(b: Book, actions: seq<Action>, asOf: int): Book
    decreases |actions|
  {
    if actions == [] then b else ActAll(Act(b, actions[0], asOf).0, actions[1..], asOf)
  }

  ghost function Outcomes(b: Book, actions: seq<Action>, asOf: int): seq<Outcome>
    decreases |actions|
  {
    if actions == [] then []
    else [Act(b, actions[0], asOf).1] + Outcomes(Act(b, actions[0], asOf).0, actions[1..], asOf)
  }

  // ---- ordering by ex-date

  function Insert(a: Action, sorted: seq<Action>): seq<Action> {
    if sorted == [] || a.exDate <= sorted[0].exDate then [a] + sorted else [sorted[0]] + Insert(a, sorted[1..])
  }

  function ByDate(actions: seq<Action>): seq<Action> {
    if actions == [] then [] else Insert(actions[0], ByDate(actions[1..]))
  }

  predicate DateOrdered(actions: seq<Action>) {
    forall i, j :: 0 <= i < j < |actions| ==> actions[i].exDate <= actions[j].exDate
  }

  function OnDay(actions: seq<Action>, day: int): seq<Action> {
    if actions == [] then []
    else (if actions[0].exDate == day then [actions[0]] else []) + OnDay(actions[1..], day)
  }

  function UpTo(actions: seq<Action>, day: int): seq<Action> {
    if actions == [] then []
    else (if actions[0].exDate <= day then [actions[0]] else []) + UpTo(actions[1..], day)
  }

  function From(actions: seq<Action>, day: int): seq<Action> {
    if actions == [] then []
    else (if actions[0].exDate >= day then [actions[0]] else []) + From(actions[1..], day)
  }

  lemma {:induction false} InsertOrdered(a: Action, sorted: seq<Action>)
    requires DateOrdered(sorted)
    ensures var r := Insert(a, sorted);
            DateOrdered(r) && |r| == |sorted| + 1 && (r[0] == a || (|sorted| > 0 && r[0] == sorted[0]))
    ensures forall x :: x in Insert(a, sorted) <==> x == a || x in sorted
  {
    if sorted != [] && a.exDate > sorted[0].exDate {
      InsertOrdered(a, sorted[1..]);
      var rest := Insert(a, sorted[1..]);
      assert forall x :: x in rest ==> sorted[0].exDate <= x.exDate;
      assert forall i :: 0 <= i < |rest| ==> rest[i] in rest;
    }
  }

  // Inserting before equals keeps earlier actions of a day in front.
  lemma {:induction false} InsertOnDay(a: Action, sorted: seq<Action>, day: int)
    requires DateOrdered(sorted)
    ensures OnDay(Insert(a, sorted), day) == OnDay([a] + sorted, day)
  {
    if sorted != [] && a.exDate > sorted[0].exDate {
      InsertOnDay(a, sorted[1..], day);
      var s := sorted[0];
      assert ([s] + Insert(a, sorted[1..]))[1..] == Insert(a, sorted[1..]);
      assert ([a] + sorted[1..])[1..] == sorted[1..] && ([a] + sorted)[1..] == sorted;
    }
  }

  // A stable sort: ordered by date, and each day's actions are the given ones in the given order.
  lemma {:induction false} ByDateStable(actions: seq<Action>)
    ensures DateOrdered(ByDate(actions)) && |ByDate(actions)| == |actions|
    ensures forall x :: x in ByDate(actions) <==> x in actions
    ensures forall d :: OnDay(ByDate(actions), d) == OnDay(actions, d)
  {
    if actions != [] {
      var a, rest := actions[0], actions[1..];
      assert actions == [a] + rest;
      ByDateStable(rest);
      InsertOrdered(a, ByDate(rest));
      forall d
        ensures OnDay(ByDate(actions), d) == OnDay(actions, d)
      {
        InsertOnDay(a, ByDate(rest), d);
        assert ([a] + ByDate(rest))[1..] == ByDate(rest);
        assert OnDay(ByDate(rest), d) == OnDay(rest, d);
      }
    }
  }

  lemma {:induction false} OnDayShape(xs: seq<Action>, day: int)
    ensures forall x :: x in OnDay(xs, day) <==> x in xs && x.exDate == day
  {
    if xs != [] {
      OnDayShape(xs[1..], day);
      assert xs == [xs[0]] + xs[1..];
    }
  }

  // Those properties leave no choice: there is only one such order.
  lemma {:induction false} StableUnique(xs: seq<Action>, ys: seq<Action>)
    requires DateOrdered(xs) && DateOrdered(ys) && forall d :: OnDay(xs, d) == OnDay(ys, d)
    ensures xs == ys
  {
    if xs != [] {
      SameHead(xs, ys);
    } else if ys != [] {
      SameHead(ys, xs);
    }
    if xs != [] && ys != [] {
      forall d
        ensures OnDay(xs[1..], d) == OnDay(ys[1..], d)
      {
        assert OnDay(xs, d) == OnDay(ys, d);
        var head := if xs[0].exDate == d then [xs[0]] else [];
        assert OnDay(xs, d)[|head|..] == OnDay(xs[1..], d) && OnDay(ys, d)[|head|..] == OnDay(ys[1..], d);
      }
      StableUnique(xs[1..], ys[1..]);
    }
  }

  lemma SameHead(xs: seq<Action>, ys: seq<Action>)
    requires xs != [] && DateOrdered(xs) && DateOrdered(ys) && forall d :: OnDay(xs, d) == OnDay(ys, d)
    ensures ys != [] && xs[0] == ys[0]
  {
    var d := xs[0].exDate;
    OnDayShape(ys, d);
    assert OnDay(xs, d)[0] == xs[0];
    assert xs[0] in OnDay(ys, d);
    assert ys != [];
    var e := ys[0].exDate;
    OnDayShape(xs, e);
    assert OnDay(ys, e)[0] == ys[0];
    assert ys[0] in OnDay(xs, e);
    var i :| 0 <= i < |xs| && xs[i] == ys[0];
    var j :| 0 <= j < |ys| && ys[j] == xs[0];
    assert d <= e <= d;
  }

  // ---- cutting a batch at a day

  lemma {:induction false} OnDayOfParts(xs: seq<Action>, cut: int, d: int)
    ensures OnDay(UpTo(xs, cut), d) == (if d <= cut then OnDay(xs, d) else [])
    ensures OnDay(From(xs, cut), d) == (if d >= cut then OnDay(xs, d) else [])
  {
    if xs != [] {
      OnDayOfParts(xs[1..], cut, d);
      var x, u, f := xs[0], UpTo(xs[1..], cut), From(xs[1..], cut);
      assert UpTo(xs, cut) == (if x.exDate <= cut then [x] + u else u);
      assert From(xs, cut) == (if x.exDate >= cut then [x] + f else f);
      assert ([x] + u)[1..] == u && ([x] + f)[1..] == f;
    }
  }

  lemma {:induction false} OnDayAppend(xs: seq<Action>, ys: seq<Action>, d: int)
    ensures OnDay(xs + ys, d) == OnDay(xs, d) + OnDay(ys, d)
  {
    if xs == [] {
      assert xs + ys == ys;
    } else {
      OnDayAppend(xs[1..], ys, d);
      assert (xs + ys)[1..] == xs[1..] + ys;
      var head := if xs[0].exDate == d then [xs[0]] else [];
      assert OnDay(xs + ys, d) == head + (OnDay(xs[1..], d) + OnDay(ys, d));
    }
  }

  lemma {:induction false} PartsInRange(xs: seq<Action>, cut: int)
    ensures forall x :: x in UpTo(xs, cut) ==> x in xs && x.exDate <= cut
    ensures forall x :: x in From(xs, cut) ==> x in xs && x.exDate >= cut
  {
    if xs != [] {
      PartsInRange(xs[1..], cut);
    }
  }

  lemma OrderedAppend(xs: seq<Action>, ys: seq<Action>)
    requires DateOrdered(xs) && DateOrdered(ys)
    requires forall x, y :: x in xs && y in ys ==> x.exDate <= y.exDate
    ensures DateOrdered(xs + ys)
  {
    var both := xs + ys;
    forall i, j | 0 <= i < j < |both|
      ensures both[i].exDate <= both[j].exDate
    {
      if i < |xs| <= j {
        assert both[i] in xs && both[j] in ys;
      }
    }
  }

  lemma SortedParts(xs: seq<Action>, cut: int)
    ensures ByDate(xs) == ByDate(UpTo(xs, cut)) + ByDate(From(xs, cut + 1))
  {
    var early, late := UpTo(xs, cut), From(xs, cut + 1);
    var both := ByDate(early) + ByDate(late);
    ByDateStable(xs);
    ByDateStable(early);
    ByDateStable(late);
    PartsInRange(xs, cut);
    PartsInRange(xs, cut + 1);
    OrderedAppend(ByDate(early), ByDate(late));
    forall d
      ensures OnDay(ByDate(xs), d) == OnDay(both, d)
    {
      OnDayAppend(ByDate(early), ByDate(late), d);
      OnDayOfParts(xs, cut, d);
      OnDayOfParts(xs, cut + 1, d);
      assert OnDay(ByDate(early), d) == OnDay(early, d) && OnDay(ByDate(late), d) == OnDay(late, d);
      hide OnDay, ByDate, UpTo, From, DateOrdered;
    }
    hide OnDay, ByDate, UpTo, From, DateOrdered;
    StableUnique(ByDate(xs), both);
  }

  // ---- batches

  ghost function ApplyBatch(b: Book, actions: seq<Action>, asOf: int): Book {
    ActAll(b, ByDate(actions), asOf)
  }

  lemma {:induction false} ActAllAppend(b: Book, xs: seq<Action>, ys: seq<Action>, asOf: int)
    ensures ActAll(b, xs + ys, asOf) == ActAll(ActAll(b, xs, asOf), ys, asOf)
    decreases |xs|
  {
    hide Act;
    if xs == [] {
      assert xs + ys == ys;
    } else {
      ActAllAppend(Act(b, xs[0], asOf).0, xs[1..], ys, asOf);
      assert (xs + ys)[1..] == xs[1..] + ys;
    }
  }

  // Any later as-of day gives the same result once every action is past.
  lemma {:induction false} AsOfIrrelevant(b: Book, xs: seq<Action>, d: int, e: int)
    requires forall x :: x in xs ==> x.exDate <= d && x.exDate <= e
    ensures ActAll(b, xs, d) == ActAll(b, xs, e)
    decreases |xs|
  {
    if xs != [] {
      assert Act(b, xs[0], d) == Act(b, xs[0], e);
      hide Act;
      AsOfIrrelevant(Act(b, xs[0], d).0, xs[1..], d, e);
    }
  }

  lemma {:induction false} FutureIgnored(b: Book, xs: seq<Action>, asOf: int)
    requires forall x :: x in xs ==> x.exDate > asOf
    ensures ActAll(b, xs, asOf) == b
    decreases |xs|
  {
    if xs != [] {
      assert Act(b, xs[0], asOf).0 == b;
      hide Act;
      FutureIgnored(b, xs[1..], asOf);
    }
  }

  // A batch cut at any day up to the as-of day: the part up to the cut, as of the cut, and then the rest.
  lemma BatchCut(b: Book, actions: seq<Action>, cut: int, asOf: int)
    requires cut <= asOf
    ensures ApplyBatch(b, actions, asOf)
            == ApplyBatch(ApplyBatch(b, UpTo(actions, cut), cut), From(actions, cut + 1), asOf)
  {
    var early, late := UpTo(actions, cut), From(actions, cut + 1);
    SortedParts(actions, cut);
    ActAllAppend(b, ByDate(early), ByDate(late), asOf);
    PartsInRange(actions, cut);
    ByDateStable(early);
    AsOfIrrelevant(b, ByDate(early), asOf, cut);
  }

  // Actions after the as-of day change nothing.
  lemma FutureActionsIgnored(b: Book, actions: seq<Action>, asOf: int)
    ensures ApplyBatch(b, actions, asOf) == ApplyBatch(b, UpTo(actions, asOf), asOf)
  {
    BatchCut(b, actions, asOf, asOf);
    var late := From(actions, asOf + 1);
    PartsInRange(actions, asOf + 1);
    ByDateStable(late);
    FutureIgnored(ApplyBatch(b, UpTo(actions, asOf), asOf), ByDate(late), asOf);
  }

  // Each day applies its own actions as of that day.
  ghost function DayByDay(b: Book, actions: seq<Action>, day: int, asOf: int): Book
    decreases asOf - day
  {
    if day > asOf then b else DayByDay(ApplyBatch(b, OnDay(actions, day), day), actions, day + 1, asOf)
  }

  lemma {:induction false} FromTwice(xs: seq<Action>, day: int)
    ensures UpTo(From(xs, day), day) == OnDay(xs, day) && From(From(xs, day), day + 1) == From(xs, day + 1)
  {
    if xs != [] {
      FromTwice(xs[1..], day);
      var x, f := xs[0], From(xs[1..], day);
      assert From(xs, day) == (if x.exDate >= day then [x] + f else f);
      assert ([x] + f)[1..] == f;
    }
  }

  lemma {:induction false} DaysFrom(b: Book, actions: seq<Action>, day: int, asOf: int)
    ensures DayByDay(b, actions, day, asOf) == ApplyBatch(b, From(actions, day), asOf)
    decreases asOf - day
  {
    hide ActAll, ByDate;
    if day > asOf {
      PartsInRange(actions, day);
      ByDateStable(From(actions, day));
      FutureIgnored(b, ByDate(From(actions, day)), asOf);
    } else {
      BatchCut(b, From(actions, day), day, asOf);
      FromTwice(actions, day);
      hide ApplyBatch;
      DaysFrom(ApplyBatch(b, OnDay(actions, day), day), actions, day + 1, asOf);
    }
  }

  lemma {:induction false} FromAll(xs: seq<Action>, day: int)
    requires forall x :: x in xs ==> x.exDate >= day
    ensures From(xs, day) == xs
  {
    if xs != [] {
      FromAll(xs[1..], day);
      assert xs == [xs[0]] + xs[1..];
    }
  }

  // One batch, in whatever order it is listed, equals applying day after day.
  lemma BatchIsDayByDay(b: Book, actions: seq<Action>, first: int, asOf: int)
    requires forall a :: a in actions ==> a.exDate >= first
    ensures DayByDay(b, actions, first, asOf) == ApplyBatch(b, actions, asOf)
  {
    DaysFrom(b, actions, first, asOf);
    FromAll(actions, first);
  }

  // ---- what a batch does to the book

  // The product of the factors of a symbol.
  function FactorOf(xs: seq<Action>, symbol: string, asOf: int): (f: real)
    ensures f > 0.0
  {
    if xs == [] then 1.0
    else
      var before := FactorOf(xs[..|xs| - 1], symbol, asOf);
      var a := xs[|xs| - 1];
      if a.symbol == symbol && Multiplies(a, asOf) then
        ValuePositive(before, SplitFactor(a).value);
        Value(before, SplitFactor(a).value)
      else before
  }

  // The dividends of xs, in order, each on the starting quantity times the factors before it.
  function DividendsOf(b: Book, xs: seq<Action>, asOf: int): real {
    if xs == [] then 0.0
    else
      var before := xs[..|xs| - 1];
      var a := xs[|xs| - 1];
      var paid := if a.kind == Dividend && a.exDate <= asOf && a.amount.Some? && Quantity(b, a.symbol) > 0.0 then
                    Value(Value(Quantity(b, a.symbol), FactorOf(before, a.symbol, asOf)), a.amount.value)
                  else 0.0;
      DividendsOf(b, before, asOf) + paid
  }

  // What corporate actions make of b after xs.
  ghost predicate Adjusted(b: Book, b': Book, xs: seq<Action>, asOf: int) {
    && b'.cash == b.cash + DividendsOf(b, xs, asOf)
    && b' == b.(cash := b'.cash, positions := b'.positions)
    && b'.positions.Keys == b.positions.Keys
    && forall s :: AdjustedHolding(Holding(b, s), Holding(b', s), FactorOf(xs, s, asOf))
  }

  // A holding multiplied by a factor keeps its entry value; an empty one is left alone.
  predicate AdjustedHolding(p: Position, p': Position, factor: real) {
    && p'.quantity == Value(p.quantity, factor) && EntryOf(p') == EntryOf(p)
    && (p.quantity == 0.0 ==> p' == p)
  }

  lemma ScaledEntry(p: Position, factor: real)
    requires factor > 0.0
    ensures EntryOf(Scaled(p, factor)) == EntryOf(p)
  {
    var a := p.average / factor;
    assert a * factor == p.average;
    assert (p.quantity * factor) * a == p.quantity * (factor * a);
  }

  lemma SignKept(q: real, f: real)
    requires f > 0.0
    ensures (Value(q, f) > 0.0 <==> q > 0.0) && (Value(q, f) == 0.0 <==> q == 0.0)
  {
  }

  lemma ValueAssociates(q: real, f: real, g: real)
    ensures Value(Value(q, f), g) == Value(q, Value(f, g))
  {
  }

  lemma AdjustedOnce(b: Book, b': Book, xs: seq<Action>, a: Action, asOf: int)
    requires Adjusted(b, b', xs, asOf)
    ensures Adjusted(b, Act(b', a, asOf).0, xs + [a], asOf)
  {
    var b'' := Act(b', a, asOf).0;
    var all := xs + [a];
    assert all[..|all| - 1] == xs;
    var f := FactorOf(xs, a.symbol, asOf);
    SignKept(Quantity(b, a.symbol), f);
    assert Quantity(b', a.symbol) == Value(Quantity(b, a.symbol), f);
    hide Value, EntryOf, SplitFactor;
    forall s
      ensures AdjustedHolding(Holding(b, s), Holding(b'', s), FactorOf(all, s, asOf))
    {
      assert AdjustedHolding(Holding(b, s), Holding(b', s), FactorOf(xs, s, asOf));
      if s == a.symbol && Multiplies(a, asOf) {
        var factor := SplitFactor(a).value;
        ValueAssociates(Quantity(b, s), f, factor);
        ScaledEntry(Holding(b', s), factor);
        ScaledNothing(Quantity(b, s), Value(f, factor));
      }
    }
  }

  lemma ScaledNothing(q: real, f: real)
    ensures q == 0.0 ==> Value(q, f) == 0.0
  {
  }

  lemma {:induction false} AdjustedAll(b: Book, xs: seq<Action>, asOf: int)
    ensures Adjusted(b, ActAll(b, xs, asOf), xs, asOf)
    decreases |xs|
  {
    if xs == [] {
      assert forall s :: AdjustedHolding(Holding(b, s), Holding(b, s), 1.0);
    } else {
      var init, a := xs[..|xs| - 1], xs[|xs| - 1];
      assert xs == init + [a];
      AdjustedAll(b, init, asOf);
      hide Adjusted, Act;
      ActAllAppend(b, init, [a], asOf);
      var b' := ActAll(b, init, asOf);
      assert ActAll(b', [a], asOf) == Act(b', a, asOf).0;
      AdjustedOnce(b, b', init, a, asOf);
    }
  }

  // A whole batch keeps every average price times quantity, multiplies each quantity by its symbol's factors, moves
  // cash by exactly the dividends on the quantities split so far, and touches nothing else.
  lemma BatchAdjusts(b: Book, actions: seq<Action>, asOf: int)
    ensures var b' := ApplyBatch(b, actions, asOf);
            && b'.cash == b.cash + DividendsOf(b, ByDate(actions), asOf)
            && b' == b.(cash := b'.cash, positions := b'.positions) && b'.positions.Keys == b.positions.Keys
            && forall s :: Quantity(b', s) == Value(Quantity(b, s), FactorOf(ByDate(actions), s, asOf))
                           && EntryOf(Holding(b', s)) == EntryOf(Holding(b, s))
                           && (Quantity(b, s) == 0.0 ==> Holding(b', s) == Holding(b, s))
  {
    var b' := ApplyBatch(b, actions, asOf);
    AdjustedAll(b, ByDate(actions), asOf);
    hide ActAll, ByDate, Value, EntryOf, FactorOf, DividendsOf;
    forall s
      ensures Quantity(b', s) == Value(Quantity(b, s), FactorOf(ByDate(actions), s, asOf))
      ensures EntryOf(Holding(b', s)) == EntryOf(Holding(b, s))
      ensures Quantity(b, s) == 0.0 ==> Holding(b', s) == Holding(b, s)
    {
      assert AdjustedHolding(Holding(b, s), Holding(b', s), FactorOf(ByDate(actions), s, asOf));
    }
  }

  // ---- applying the same batch again

  // Nothing held is multiplied by anything but 1.
  ghost predicate FactorsAreOne(b: Book, xs: seq<Action>, asOf: int) {
    forall s :: Quantity(b, s) != 0.0 ==> FactorOf(xs, s, asOf) == 1.0
  }

  lemma SecondQuantityIff(b: Book, actions: seq<Action>, asOf: int, s: string)
    ensures var once := ApplyBatch(b, actions, asOf);
            var twice := ApplyBatch(once, actions, asOf);
            && (Quantity(once, s) == 0.0 <==> Quantity(b, s) == 0.0)
            && (Quantity(twice, s) == Quantity(once, s) <==>
                Quantity(b, s) == 0.0 || FactorOf(ByDate(actions), s, asOf) == 1.0)
  {
    var once := ApplyBatch(b, actions, asOf);
    BatchAdjusts(b, actions, asOf);
    BatchAdjusts(once, actions, asOf);
    hide ApplyBatch, ByDate;
    var f := FactorOf(ByDate(actions), s, asOf);
    SignKept(Quantity(b, s), f);
    FixedIff(Quantity(b, s), f);
  }

  // Dividends look only at quantities.
  lemma {:induction false} SameDividends(b: Book, c: Book, xs: seq<Action>, asOf: int)
    requires forall s :: Quantity(b, s) == Quantity(c, s)
    ensures DividendsOf(b, xs, asOf) == DividendsOf(c, xs, asOf)
  {
    if xs != [] {
      SameDividends(b, c, xs[..|xs| - 1], asOf);
      hide Value, FactorOf;
    }
  }

  lemma SamePosition(p: Position, p': Position)
    requires p'.quantity == p.quantity && EntryOf(p') == EntryOf(p) && p.quantity != 0.0
    ensures p' == p
  {
    ZeroProduct(p.quantity, p'.average - p.average);
  }

  // With factors of 1 the first application leaves the holdings alone as well.
  lemma OnceKeepsHoldings(b: Book, actions: seq<Action>, asOf: int)
    requires FactorsAreOne(b, ByDate(actions), asOf)
    ensures ApplyBatch(b, actions, asOf) == b.(cash := b.cash + DividendsOf(b, ByDate(actions), asOf))
  {
    var b' := ApplyBatch(b, actions, asOf);
    BatchAdjusts(b, actions, asOf);
    hide ApplyBatch, ByDate, DividendsOf, FactorOf, EntryOf;
    forall s | s in b.positions
      ensures b'.positions[s] == b.positions[s]
    {
      assert Holding(b', s) == b'.positions[s] && Holding(b, s) == b.positions[s];
      if Quantity(b, s) != 0.0 {
        assert Quantity(b', s) == Value(Quantity(b, s), 1.0) == Quantity(b, s);
        SamePosition(Holding(b, s), Holding(b', s));
      }
    }
    assert b'.positions == b.positions;
  }

  // Applying the same batch again leaves the book as the first application left it exactly when every held symbol's
  // factors multiply to 1 and the dividends due, each with its sign, add up to nothing.
  lemma SecondApplicationIff(b: Book, actions: seq<Action>, asOf: int)
    ensures var once := ApplyBatch(b, actions, asOf);
            ApplyBatch(once, actions, asOf) == once <==>
            FactorsAreOne(b, ByDate(actions), asOf) && DividendsOf(b, ByDate(actions), asOf) == 0.0
  {
    var xs := ByDate(actions);
    var once := ApplyBatch(b, actions, asOf);
    var twice := ApplyBatch(once, actions, asOf);
    forall s
      ensures (Quantity(once, s) == 0.0 <==> Quantity(b, s) == 0.0)
      ensures Quantity(twice, s) == Quantity(once, s) <==> Quantity(b, s) == 0.0 || FactorOf(xs, s, asOf) == 1.0
    {
      SecondQuantityIff(b, actions, asOf, s);
    }
    BatchAdjusts(once, actions, asOf);
    if FactorsAreOne(b, xs, asOf) {
      OnceKeepsHoldings(b, actions, asOf);
      assert forall s :: Quantity(once, s) == Quantity(b, s);
      OnceKeepsHoldings(once, actions, asOf);
      SameDividends(b, once, xs, asOf);
    } else {
      var s :| Quantity(b, s) != 0.0 && FactorOf(xs, s, asOf) != 1.0;
      assert Quantity(twice, s) != Quantity(once, s);
    }
    hide ApplyBatch, ByDate, DividendsOf, FactorOf, FactorsAreOne;
  }

  // A dividend that is due, is not zero and meets a positive holding.
  ghost predicate DividendDue(b: Book, a: Action, asOf: int) {
    && a.kind == Dividend && a.exDate <= asOf && a.amount.Some? && a.amount.value != 0.0
    && Quantity(b, a.symbol) > 0.0
  }

  // When no amount is negative the dividends add up to nothing exactly when none is due.
  lemma {:induction false} NoDividendsIff(b: Book, xs: seq<Action>, asOf: int)
    requires forall a :: a in xs && a.amount.Some? ==> a.amount.value >= 0.0
    ensures DividendsOf(b, xs, asOf) >= 0.0
    ensures DividendsOf(b, xs, asOf) == 0.0 <==> forall a :: a in xs ==> !DividendDue(b, a, asOf)
  {
    if xs != [] {
      var init, a := xs[..|xs| - 1], xs[|xs| - 1];
      assert xs == init + [a];
      NoDividendsIff(b, init, asOf);
      var q := Value(Quantity(b, a.symbol), FactorOf(init, a.symbol, asOf));
      SignKept(Quantity(b, a.symbol), FactorOf(init, a.symbol, asOf));
      if a.amount.Some? {
        ZeroProduct(q, a.amount.value);
        if q > 0.0 && a.amount.value > 0.0 {
          ValuePositive(q, a.amount.value);
        }
      }
      hide Value, FactorOf;
      var paid := DividendsOf(b, xs, asOf) - DividendsOf(b, init, asOf);
      assert paid >= 0.0 && (paid == 0.0 <==> !DividendDue(b, a, asOf));
      assert forall x :: x in xs <==> x in init || x == a;
    }
  }

  // Without negative amounts: a second application is harmless exactly when every held symbol's factors multiply to 1
  // and no non-zero dividend is due on a positive holding.
  lemma SecondApplicationUnsignedIff(b: Book, actions: seq<Action>, asOf: int)
    requires forall a :: a in actions && a.amount.Some? ==> a.amount.value >= 0.0
    ensures var once := ApplyBatch(b, actions, asOf);
            ApplyBatch(once, actions, asOf) == once <==>
            FactorsAreOne(b, ByDate(actions), asOf) && forall a :: a in actions ==> !DividendDue(b, a, asOf)
  {
    SecondApplicationIff(b, actions, asOf);
    ByDateStable(actions);
    NoDividendsIff(b, ByDate(actions), asOf);
    hide ApplyBatch, FactorsAreOne, DividendsOf, ByDate, DividendDue;
  }

  function Pays(id: string, amount: real): Action {
    Action(id, "X", Dividend, 0, None, None, Some(amount))
  }

  const TEN_SHARES := Fresh(0.0).(positions := map["X" := Position(10.0, 1.0)])

  // A dividend of 1 on 10 shares is paid again; a dividend and its reversal cancel, so that batch may be repeated.
  lemma DividendsPaidTwice()
    ensures var once := ApplyBatch(TEN_SHARES, [Pays("a", 1.0)], 0);
            once.cash == 10.0 && ApplyBatch(once, [Pays("a", 1.0)], 0).cash == 20.0
    ensures var once := ApplyBatch(TEN_SHARES, [Pays("a", 1.0), Pays("b", -1.0)], 0);
            once == TEN_SHARES && ApplyBatch(once, [Pays("a", 1.0), Pays("b", -1.0)], 0) == once
  {
    var a, b := Pays("a", 1.0), Pays("b", -1.0);
    assert ByDate([a]) == [a] by {
      assert [a][1..] == [];
    }
    assert ByDate([a, b]) == [a, b] by {
      assert [a, b][1..] == [b] && [b][1..] == [];
    }
    var once := TEN_SHARES.(cash := 10.0);
    var twice := TEN_SHARES.(cash := 20.0);
    assert Act(TEN_SHARES, a, 0).0 == once && Act(once, a, 0).0 == twice && Act(once, b, 0).0 == TEN_SHARES;
    hide Act, Value;
    assert ActAll(TEN_SHARES, [a], 0) == ActAll(once, [], 0) == once;
    assert ActAll(once, [a], 0) == ActAll(twice, [], 0) == twice;
    assert ActAll(once, [b], 0) == ActAll(TEN_SHARES, [], 0) == TEN_SHARES;
    assert [a, b][1..] == [b];
    assert ActAll(TEN_SHARES, [a, b], 0) == ActAll(once, [b], 0);
  }

  lemma FixedIff(q: real, f: real)
    requires f > 0.0
    ensures Value(Value(q, f), f) == Value(q, f) <==> q == 0.0 || f == 1.0
  {
    assert Value(Value(q, f), f) - Value(q, f) == q * f * (f - 1.0);
  }

  // ---- the mark is not adjusted

  lemma SplitMovesEquity(b: Book, a: Action, asOf: int)
    requires Multiplies(a, asOf) && Quantity(b, a.symbol) != 0.0
    ensures var b' := Act(b, a, asOf).0;
            var s, factor := a.symbol, SplitFactor(a).value;
            && Equity(b') == Equity(b) + ValueOf(b', s) - ValueOf(b, s)
            && (if s in b.marks then
                  ValueOf(b', s) == Value(Value(Quantity(b, s), factor), b.marks[s])
                  && ValueOf(b, s) == Value(Quantity(b, s), b.marks[s])
                else ValueOf(b', s) == ValueOf(b, s))
  {
    var b' := Act(b, a, asOf).0;
    var s, factor := a.symbol, SplitFactor(a).value;
    var p := Scaled(b.positions[s], factor);
    assert b' == b.(positions := b.positions[s := p]);
    assert MarketValues(b') == MarketValues(b)[s := ValueOf(b', s)];
    SumUpdate(MarketValues(b), s, ValueOf(b', s));
    ScaledEntry(b.positions[s], factor);
    assert ValueOf(b', s) == Value(p.quantity, if s in b.marks then b.marks[s] else p.average);
    hide Value;
  }

  // After a split the book's equity is what it was exactly when the symbol has no mark, or the factor is 1, or its
  // market value is zero: the quantity is multiplied but the last mark stays at the old price.
  lemma SplitKeepsEquityIff(b: Book, a: Action, asOf: int)
    requires Multiplies(a, asOf) && Quantity(b, a.symbol) != 0.0
    ensures Equity(Act(b, a, asOf).0) == Equity(b) <==>
            a.symbol !in b.marks || SplitFactor(a).value == 1.0 || ValueOf(b, a.symbol) == 0.0
  {
    SplitMovesEquity(b, a, asOf);
    if a.symbol in b.marks {
      MarkedValue(Quantity(b, a.symbol), b.marks[a.symbol], SplitFactor(a).value);
    }
    hide Equity, ValueOf, Act, Value, Multiplies, SplitFactor;
  }

  const MARKED_SHARES := TEN_SHARES.(marks := map["X" := 10.0])

  // Ten shares marked at 10, split two for one: twice the shares at the old mark.
  lemma SplitDoublesEquity()
    ensures var split := Action("a", "X", Split, 0, Some(2.0), Some(1.0), None);
            Equity(MARKED_SHARES) == 100.0 && Equity(Act(MARKED_SHARES, split, 0).0) == 200.0
  {
    var split := Action("a", "X", Split, 0, Some(2.0), Some(1.0), None);
    assert SplitFactor(split) == Some(2.0);
    var values := MarketValues(MARKED_SHARES);
    assert values == map["X" := 100.0];
    SumSplit(values, "X");
    assert values - {"X"} == map[];
    SplitMovesEquity(MARKED_SHARES, split, 0);
    assert Value(Value(10.0, 2.0), 10.0) == 200.0;
  }

  lemma MarkedValue(q: real, mark: real, factor: real)
    ensures Value(Value(q, factor), mark) == Value(q, mark) <==> factor == 1.0 || Value(q, mark) == 0.0
  {
    var v := Value(q, mark);
    assert Value(Value(q, factor), mark) == Value(v, factor);
    assert Value(v, factor) - v == Value(v, factor - 1.0);
    ZeroProduct(v, factor - 1.0);
    hide Value;
  }

  lemma ZeroProduct(x: real, y: real)
    ensures Value(x, y) == 0.0 <==> x == 0.0 || y == 0.0
  {
  }

  // ---- apply_corporate_actions_to_book

  lemma OutcomesAppend(b: Book, xs: seq<Action>, a: Action, asOf: int)
    ensures Outcomes(b, xs + [a], asOf) == Outcomes(b, xs, asOf) + [Act(ActAll(b, xs, asOf), a, asOf).1]
    ensures ActAll(b, xs + [a], asOf) == Act(ActAll(b, xs, asOf), a, asOf).0
    decreases |xs|
  {
    hide Act;
    if xs == [] {
      assert xs + [a] == [a] && [a][1..] == [];
    } else {
      OutcomesAppend(Act(b, xs[0], asOf).0, xs[1..], a, asOf);
      assert (xs + [a])[1..] == xs[1..] + [a];
    }
  }

  method ActOn(book: Portfolio, a: Action, asOf: int) returns (outcome: Outcome)
    modifies book
    ensures (book.View(), outcome) == Act(old(book.View()), a, asOf)
  {
    hide Value;
    if a.exDate > asOf {
      return Skipped("future");
    }
    var quantity := Quantity(book.View(), a.symbol);
    if a.kind == Merger || a.kind == Demerger {
      return Skipped("manual_unsupported");
    }
    if a.kind == Split || a.kind == Bonus {
      var factor := SplitFactor(a);
      if factor == None || factor.value <= 0.0 {
        return Blocked;
      }
      if quantity == 0.0 || a.symbol !in book.positions {
        return Skipped("no_position");
      }
      var p := book.positions[a.symbol];
      p := p.(quantity := Value(quantity, factor.value), average := p.average / factor.value);
      book.positions := book.positions[a.symbol := p];
      return Applied;
    }
    if a.kind == Dividend {
      if quantity <= 0.0 || a.amount == None {
        return Skipped("dividend_noop");
      }
      book.cash := book.cash + Value(quantity, a.amount.value);
      return Applied;
    }
    return Skipped("unhandled");
  }

  // The outcomes are reported in date order.
  method ApplyToBook(book: Portfolio, actions: seq<Action>, asOf: int) returns (outcomes: seq<Outcome>)
    modifies book
    ensures book.View() == ApplyBatch(old(book.View()), actions, asOf)
    ensures outcomes == Outcomes(old(book.View()), ByDate(actions), asOf)
  {
    hide Act, ByDate;
    outcomes := [];
    var sorted := ByDate(actions);
    for i := 0 to |sorted|
      invariant book.View() == ActAll(old(book.View()), sorted[..i], asOf)
      invariant outcomes == Outcomes(old(book.View()), sorted[..i], asOf)
    {
      OutcomesAppend(old(book.View()), sorted[..i], sorted[i], asOf);
      assert sorted[..i + 1] == sorted[..i] + [sorted[i]];
      var outcome := ActOn(book, sorted[i], asOf);
      outcomes := outcomes + [outcome];
    }
    assert sorted[..|sorted|] == sorted;
  }
}
