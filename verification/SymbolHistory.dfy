// Renames of one instrument: data/identity.py (apply_symbol_change) and data/models.py (symbol_asof).

module SymbolHistory {
  import opened Trading

  datatype Entry = Entry(symbol: string, validFrom: int, validTo: Option<int>)

  datatype Instrument = Instrument(id: string, symbol: string, listing: Option<int>, history: seq<Entry>)

  // isRename distinguishes SYMBOL_CHANGE from every other action; a blank instrument id matches any instrument.
  datatype Change = Change(instrumentId: string, isRename: bool, exDate: int, newSymbol: string)

  function Max(a: int, b: int): int { if a >= b then a else b }

  function Closed(e: Entry, end: int): Entry {
    if e.validTo == None && e.validFrom <= end then e.(validTo := Some(Max(e.validFrom, end))) else e
  }

  function CloseAll(history: seq<Entry>, end: int): seq<Entry> {
    seq(|history|, i requires 0 <= i < |history| => Closed(history[i], end))
  }

  // The history before the new symbol's own entry is added.
  function Earlier(inst: Instrument, exDate: int): seq<Entry> {
    if inst.history == [] then
      [Entry(inst.symbol, if inst.listing.Some? then inst.listing.value else exDate - 1, Some(exDate - 1))]
    else CloseAll(inst.history, exDate - 1)
  }

  predicate Refused(inst: Instrument, c: Change) {
    !c.isRename || (c.instrumentId != "" && inst.id != c.instrumentId)
  }

  function Renamed(inst: Instrument, c: Change): Instrument {
    inst.(symbol := c.newSymbol, history := Earlier(inst, c.exDate) + [Entry(c.newSymbol, c.exDate, None)])
  }

  // apply_symbol_change; None is the ValueError.
  method ApplySymbolChange(inst: Instrument, c: Change) returns (changed: Option<Instrument>)
    ensures changed == if Refused(inst, c) then None else Some(Renamed(inst, c))
  {
    if !c.isRename {
      return None;
    }
    if c.instrumentId != "" && inst.id != c.instrumentId {
      return None;
    }
    var end := c.exDate - 1;
    var closed: seq<Entry> := [];
    for i := 0 to |inst.history|
      invariant |closed| == i && forall j :: 0 <= j < i ==> closed[j] == Closed(inst.history[j], end)
    {
      var entry := inst.history[i];
      if entry.validTo == None && entry.validFrom <= end {
        closed := closed + [Entry(entry.symbol, entry.validFrom, Some(Max(entry.validFrom, end)))];
      } else {
        closed := closed + [entry];
      }
    }
    if closed == [] {
      closed := [Entry(inst.symbol, if inst.listing.Some? then inst.listing.value else end, Some(end))];
    }
    assert closed == Earlier(inst, c.exDate);
    return Some(inst.(symbol := c.newSymbol, history := closed + [Entry(c.newSymbol, c.exDate, None)]));
  }

  // ---- symbol_asof

  predicate Covers(e: Entry, on: int) {
    e.validFrom <= on && (e.validTo.Some? ==> on <= e.validTo.value)
  }

  // Descending by start, equal starts in the given order.
  function InsertLatest(e: Entry, sorted: seq<Entry>): seq<Entry> {
    if sorted == [] || e.validFrom >= sorted[0].validFrom then [e] + sorted
    else [sorted[0]] + InsertLatest(e, sorted[1..])
  }

  function LatestFirst(history: seq<Entry>): seq<Entry> {
    if history == [] then [] else InsertLatest(history[0], LatestFirst(history[1..]))
  }

  function FirstCover(entries: seq<Entry>, on: int, otherwise: string): string {
    if entries == [] then otherwise
    else if Covers(entries[0], on) then entries[0].symbol
    else FirstCover(entries[1..], on, otherwise)
  }

  function SymbolAsOf(inst: Instrument, on: int): string {
    if inst.history == [] then inst.symbol else FirstCover(LatestFirst(inst.history), on, inst.symbol)
  }

  // ---- contiguous histories

  // Entries follow one another without gap or overlap; only the last is open.
  ghost predicate Contiguous(h: seq<Entry>) {
    && (forall i :: 0 <= i < |h| - 1 ==> h[i].validTo == Some(h[i + 1].validFrom - 1))
    && (forall i, j :: 0 <= i < j < |h| ==> h[i].validFrom < h[j].validFrom)
    && (h != [] ==> h[|h| - 1].validTo == None)
  }

  function Reverse(h: seq<Entry>): seq<Entry> {
    if h == [] then [] else [h[|h| - 1]] + Reverse(h[..|h| - 1])
  }

  lemma {:induction false} ReverseAt(h: seq<Entry>)
    ensures |Reverse(h)| == |h| && forall i :: 0 <= i < |h| ==> Reverse(h)[i] == h[|h| - 1 - i]
  {
    if h != [] {
      ReverseAt(h[..|h| - 1]);
    }
  }

  lemma {:induction false} InsertLast(e: Entry, sorted: seq<Entry>)
    requires forall x :: x in sorted ==> e.validFrom < x.validFrom
    ensures InsertLatest(e, sorted) == sorted + [e]
  {
    if sorted != [] {
      InsertLast(e, sorted[1..]);
      assert sorted == [sorted[0]] + sorted[1..];
    }
  }

  lemma {:induction false} LatestFirstReverses(h: seq<Entry>)
    requires forall i, j :: 0 <= i < j < |h| ==> h[i].validFrom < h[j].validFrom
    ensures LatestFirst(h) == Reverse(h)
  {
    ReverseAt(h);
    if h != [] {
      LatestFirstReverses(h[1..]);
      ReverseAt(h[1..]);
      var rest := Reverse(h[1..]);
      forall x | x in rest
        ensures h[0].validFrom < x.validFrom
      {
        var i :| 0 <= i < |rest| && rest[i] == x;
      }
      InsertLast(h[0], rest);
      assert Reverse(h) == rest + [h[0]];
    }
  }

  lemma {:induction false} FirstCoverAt(entries: seq<Entry>, on: int, otherwise: string, k: nat)
    requires k <= |entries| && forall i :: 0 <= i < k ==> !Covers(entries[i], on)
    requires k < |entries| ==> Covers(entries[k], on)
    ensures FirstCover(entries, on, otherwise) == if k < |entries| then entries[k].symbol else otherwise
  {
    if k > 0 {
      FirstCoverAt(entries[1..], on, otherwise, k - 1);
    }
  }

  // In a contiguous history the answer for a day is the entry that started last on or before it.
  lemma AsOfContiguous(inst: Instrument, on: int, k: nat)
    requires Contiguous(inst.history) && k < |inst.history| && inst.history[k].validFrom <= on
    requires k + 1 < |inst.history| ==> on < inst.history[k + 1].validFrom
    ensures SymbolAsOf(inst, on) == inst.history[k].symbol
  {
    var h := inst.history;
    LatestFirstReverses(h);
    ReverseAt(h);
    FirstCoverAt(Reverse(h), on, inst.symbol, |h| - 1 - k);
  }

  // Before the first entry the answer is the current symbol.
  lemma AsOfBefore(inst: Instrument, on: int)
    requires Contiguous(inst.history) && (inst.history != [] ==> on < inst.history[0].validFrom)
    ensures SymbolAsOf(inst, on) == inst.symbol
  {
    var h := inst.history;
    LatestFirstReverses(h);
    ReverseAt(h);
    FirstCoverAt(Reverse(h), on, inst.symbol, |h|);
  }

  // ---- the step function

  // The changes apply to this instrument, in order of date and after its listing.
  ghost predicate Orderly(inst: Instrument, listing: int, cs: seq<Change>) {
    && (forall i :: 0 <= i < |cs| ==> !Refused(inst, cs[i]) && cs[i].exDate > listing)
    && (forall i, j :: 0 <= i < j < |cs| ==> cs[i].exDate < cs[j].exDate)
  }

  function RenamedAll(inst: Instrument, cs: seq<Change>): Instrument {
    if cs == [] then inst else Renamed(RenamedAll(inst, cs[..|cs| - 1]), cs[|cs| - 1])
  }

  // The latest change on or before a day decides; before all of them, the original symbol.
  function Decided(original: string, cs: seq<Change>, on: int): string {
    if cs == [] then original
    else if cs[|cs| - 1].exDate <= on then cs[|cs| - 1].newSymbol
    else Decided(original, cs[..|cs| - 1], on)
  }

  // The first day the history will cover: the listing, or the day before the first change when that is unknown.
  predicate StartsAt(inst: Instrument, first: int, cs: seq<Change>) {
    inst.listing == Some(first) || (inst.listing == None && (cs != [] ==> first == cs[0].exDate - 1))
  }

  // The history an orderly sequence of changes builds.
  ghost predicate Built(inst: Instrument, listing: int, cs: seq<Change>, now: Instrument) {
    && now.id == inst.id && now.listing == inst.listing
    && now.symbol == (if cs == [] then inst.symbol else cs[|cs| - 1].newSymbol)
    && (if cs == [] then now.history == []
        else
          && |now.history| == |cs| + 1 && Contiguous(now.history)
          && now.history[0].validFrom == listing && now.history[0].symbol == inst.symbol
          && forall i :: 0 <= i < |cs| ==>
               now.history[i + 1].validFrom == cs[i].exDate && now.history[i + 1].symbol == cs[i].newSymbol)
  }

  // Closing the open entry the day before a new one starts keeps a history contiguous.
  lemma ContiguousExtended(h: seq<Entry>, e: Entry)
    requires Contiguous(h) && h != [] && h[|h| - 1].validFrom < e.validFrom && e.validTo == None
    ensures Contiguous(CloseAll(h, e.validFrom - 1) + [e])
    ensures forall i :: 0 <= i < |h| ==> var x := CloseAll(h, e.validFrom - 1)[i];
                                         x.validFrom == h[i].validFrom && x.symbol == h[i].symbol
  {
    var last := |h| - 1;
    forall i | 0 <= i < last
      ensures Closed(h[i], e.validFrom - 1) == h[i]
    {
      assert h[i].validTo == Some(h[i + 1].validFrom - 1);
    }
    assert Closed(h[last], e.validFrom - 1) == h[last].(validTo := Some(e.validFrom - 1));
  }

  lemma BuiltStep(inst: Instrument, listing: int, cs: seq<Change>, c: Change, now: Instrument)
    requires Built(inst, listing, cs, now) && Orderly(inst, listing, cs + [c]) && StartsAt(inst, listing, cs + [c])
    ensures Built(inst, listing, cs + [c], Renamed(now, c))
  {
    var all := cs + [c];
    assert all[|cs|] == c && forall i :: 0 <= i < |cs| ==> all[i] == cs[i];
    if cs != [] {
      assert all[|cs| - 1].exDate < all[|cs|].exDate;
      assert now.history[|cs|].validFrom < c.exDate;
      hide Contiguous, Orderly, StartsAt;
      ContiguousExtended(now.history, Entry(c.newSymbol, c.exDate, None));
    }
  }

  lemma {:induction false} BuiltAll(inst: Instrument, listing: int, cs: seq<Change>)
    requires inst.history == [] && Orderly(inst, listing, cs) && StartsAt(inst, listing, cs)
    ensures Built(inst, listing, cs, RenamedAll(inst, cs))
  {
    if cs != [] {
      var init, c := cs[..|cs| - 1], cs[|cs| - 1];
      assert cs == init + [c];
      BuiltAll(inst, listing, init);
      BuiltStep(inst, listing, init, c, RenamedAll(inst, init));
    }
  }

  // Where in a built history the decided symbol sits.
  lemma {:induction false} DecidedAt(original: string, cs: seq<Change>, on: int) returns (k: nat)
    requires forall i, j :: 0 <= i < j < |cs| ==> cs[i].exDate < cs[j].exDate
    ensures k <= |cs| && (k > 0 ==> cs[k - 1].exDate <= on) && (k < |cs| ==> on < cs[k].exDate)
    ensures Decided(original, cs, on) == if k == 0 then original else cs[k - 1].newSymbol
  {
    if cs == [] || cs[|cs| - 1].exDate <= on {
      k := |cs|;
    } else {
      k := DecidedAt(original, cs[..|cs| - 1], on);
    }
  }

  // On every day from the listing, the symbol is that of the latest change on or before that day.
  lemma SymbolIsStepFunction(inst: Instrument, listing: int, cs: seq<Change>, on: int)
    requires inst.listing == Some(listing) && inst.history == [] && Orderly(inst, listing, cs) && on >= listing
    ensures SymbolAsOf(RenamedAll(inst, cs), on) == Decided(inst.symbol, cs, on)
  {
    BuiltAll(inst, listing, cs);
    if cs != [] {
      var k := DecidedAt(inst.symbol, cs, on);
      AsOfContiguous(RenamedAll(inst, cs), on, k);
    }
  }

  // A later change leaves the answer for an earlier day alone exactly when that day is not before the listing, or
  // the new symbol is the current one: days before the listing are answered with whatever the symbol now is.
  lemma EarlierAnswersKeptIff(inst: Instrument, listing: int, cs: seq<Change>, c: Change, on: int)
    requires inst.listing == Some(listing) && inst.history == [] && Orderly(inst, listing, cs + [c]) && on < c.exDate
    ensures var now := RenamedAll(inst, cs);
            SymbolAsOf(Renamed(now, c), on) == SymbolAsOf(now, on) <==> on >= listing || c.newSymbol == now.symbol
  {
    var all := cs + [c];
    OrderlyPrefix(inst, listing, cs, c);
    assert all[..|cs|] == cs && all[|cs|] == c;
    assert RenamedAll(inst, all) == Renamed(RenamedAll(inst, cs), c);
    assert Decided(inst.symbol, all, on) == Decided(inst.symbol, cs, on);
    hide RenamedAll, Decided, Orderly, SymbolAsOf, Renamed;
    if on >= listing {
      SymbolIsStepFunction(inst, listing, cs, on);
      SymbolIsStepFunction(inst, listing, all, on);
    } else {
      BuiltAll(inst, listing, cs);
      BuiltAll(inst, listing, all);
      AsOfBefore(RenamedAll(inst, cs), on);
      AsOfBefore(RenamedAll(inst, all), on);
    }
  }

  lemma OrderlyPrefix(inst: Instrument, listing: int, cs: seq<Change>, c: Change)
    requires Orderly(inst, listing, cs + [c])
    ensures Orderly(inst, listing, cs)
  {
    assert forall i :: 0 <= i < |cs| ==> (cs + [c])[i] == cs[i];
    hide Refused;
  }

  // Without a listing date: from the day before the first change on, the latest change decides as always; on every
  // earlier day the answer is whatever the symbol now is.
  lemma UnknownListingAnswers(inst: Instrument, cs: seq<Change>, on: int)
    requires inst.listing == None && inst.history == [] && cs != [] && Orderly(inst, cs[0].exDate - 1, cs)
    ensures SymbolAsOf(RenamedAll(inst, cs), on) ==
            if on >= cs[0].exDate - 1 then Decided(inst.symbol, cs, on) else cs[|cs| - 1].newSymbol
  {
    BuiltAll(inst, cs[0].exDate - 1, cs);
    if on >= cs[0].exDate - 1 {
      var k := DecidedAt(inst.symbol, cs, on);
      AsOfContiguous(RenamedAll(inst, cs), on, k);
    } else {
      AsOfBefore(RenamedAll(inst, cs), on);
    }
  }

  const RENAME := Change("i", true, 20, "B")

  // Day 5 is before the listing at day 10, or before a change at day 20 without a listing: answered A, until the change
  // makes it B.
  lemma ChangeRewritesThePast()
    ensures var inst := Instrument("i", "A", Some(10), []);
            SymbolAsOf(inst, 5) == "A" && SymbolAsOf(Renamed(inst, RENAME), 5) == "B"
    ensures var inst := Instrument("i", "A", None, []);
            SymbolAsOf(inst, 5) == "A" && SymbolAsOf(Renamed(inst, RENAME), 5) == "B"
  {
    var listed, unlisted := Instrument("i", "A", Some(10), []), Instrument("i", "A", None, []);
    assert [RENAME][..0] == [] && RenamedAll(listed, []) == listed && RenamedAll(unlisted, []) == unlisted;
    assert RenamedAll(listed, [RENAME]) == Renamed(listed, RENAME);
    assert RenamedAll(unlisted, [RENAME]) == Renamed(unlisted, RENAME);
    BuiltAll(listed, 10, [RENAME]);
    AsOfBefore(Renamed(listed, RENAME), 5);
    UnknownListingAnswers(unlisted, [RENAME], 5);
  }
}
