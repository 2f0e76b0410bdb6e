// Recomputes the paper book from its fills: paper/reconciliation.py.

module PaperReconciliation {
  import opened Trading
  import opened Ledger
  import opened PaperBooks

  datatype Code =
    | DuplicateFill | ImpossibleQuantity | OrphanFill | PositionMismatch | NegativeHoldings | CashMismatch
    | NegativeCash | LedgerSetMismatch | MissingInAudit | OrphanAudit | EquityIdentity

  function SignedQuantity(f: Fill): real {
    if f.side == Buy then f.quantity else -f.quantity
  }

  // What the fills alone say a symbol's position and the cash movement should be.
  function NetQuantity(fills: seq<Fill>, symbol: string): real {
    if fills == [] then 0.0
    else
      NetQuantity(fills[..|fills| - 1], symbol)
      + (if fills[|fills| - 1].symbol == symbol then SignedQuantity(fills[|fills| - 1]) else 0.0)
  }

  function NetCash(fills: seq<Fill>): real {
    if fills == [] then 0.0 else NetCash(fills[..|fills| - 1]) + fills[|fills| - 1].netCash
  }

  ghost predicate DistinctIds(fills: seq<Fill>) {
    forall i, j :: 0 <= i < j < |fills| ==> fills[i].id != fills[j].id
  }

  predicate Traded(fills: seq<Fill>, symbol: string) {
    exists f :: f in fills && f.symbol == symbol
  }

  predicate AnyImpossible(fills: seq<Fill>) {
    exists f :: f in fills && f.quantity <= 0.0
  }

  predicate AnyOrphan(fills: seq<Fill>, known: Option<set<Id>>) {
    known.Some? && exists f :: f in fills && f.orderId !in known.value
  }

  function LedgerIds(p: PaperBook): set<Id> {
    set e | e in p.positionLedger :: e.fillId
  }

  function FillIds(fills: seq<Fill>): set<Id> {
    set f | f in fills :: f.id
  }

  // What each issue code means.
  ghost predicate Finding(c: Code, p: PaperBook, fills: seq<Fill>, initialCash: real, allowNegative: bool,
                          known: Option<set<Id>>, audit: Option<set<Id>>) {
    match c
    case DuplicateFill => !DistinctIds(fills)
    case ImpossibleQuantity => AnyImpossible(fills)
    case OrphanFill => AnyOrphan(fills, known)
    case PositionMismatch => exists s :: Traded(fills, s) && Apart(Quantity(p.book, s), NetQuantity(fills, s), EPS6)
    case NegativeHoldings => exists s :: Traded(fills, s) && Quantity(p.book, s) < -EPS6
    case CashMismatch => Apart(p.book.cash, initialCash + NetCash(fills), EPS6)
    case NegativeCash => !allowNegative && p.book.cash < -EPS6
    case LedgerSetMismatch => LedgerIds(p) != p.applied
    case MissingInAudit => audit.Some? && !(FillIds(fills) <= audit.value)
    case OrphanAudit => audit.Some? && !(audit.value <= FillIds(fills))
    case EquityIdentity => Apart(Equity(p.book), p.book.cash + MarketValue(p.book), EPS6)
  }

  ghost predicate Reconciles(p: PaperBook, fills: seq<Fill>, initialCash: real, allowNegative: bool) {
    forall c :: !Finding(c, p, fills, initialCash, allowNegative, None, None)
  }

  lemma DifferenceEmpty(a: set<Id>, b: set<Id>)
    ensures a - b == {} <==> a <= b
  {
    if !(a <= b) {
      var x :| x in a && x !in b;
      assert x in a - b;
    }
  }

  lemma Appended(fills: seq<Fill>, f: Fill, known: Option<set<Id>>)
    ensures NetCash(fills + [f]) == NetCash(fills) + f.netCash
    ensures forall s :: NetQuantity(fills + [f], s) ==
                        NetQuantity(fills, s) + (if f.symbol == s then SignedQuantity(f) else 0.0)
    ensures forall s :: Traded(fills + [f], s) <==> Traded(fills, s) || s == f.symbol
    ensures AnyImpossible(fills + [f]) <==> AnyImpossible(fills) || f.quantity <= 0.0
    ensures AnyOrphan(fills + [f], known) <==> AnyOrphan(fills, known) || (known.Some? && f.orderId !in known.value)
  {
    assert (fills + [f])[..|fills|] == fills;
    assert f in fills + [f];
    assert forall g :: g in fills ==> g in fills + [f];
    forall s
      ensures Traded(fills + [f], s) <==> Traded(fills, s) || s == f.symbol
    {
    }
  }

  function Flag(issues: seq<Code>, condition: bool, code: Code): (r: seq<Code>)
    ensures forall c :: c in r <==> c in issues || (condition && c == code)
  {
    if condition then issues + [code] else issues
  }

  // What the pass has found out about the fills so far.
  ghost predicate Summed(fills: seq<Fill>, known: Option<set<Id>>, issues: seq<Code>, quantities: map<string, real>,
                         cash: real) {
    && (forall s :: s in quantities <==> Traded(fills, s))
    && (forall s :: NetQuantity(fills, s) == if s in quantities then quantities[s] else 0.0)
    && cash == NetCash(fills)
    && (ImpossibleQuantity in issues <==> AnyImpossible(fills))
    && (OrphanFill in issues <==> AnyOrphan(fills, known))
    && (forall c :: c in issues ==> c == ImpossibleQuantity || c == OrphanFill)
  }

  lemma SummedAppend(fills: seq<Fill>, known: Option<set<Id>>, issues: seq<Code>, quantities: map<string, real>,
                     cash: real, f: Fill)
    requires Summed(fills, known, issues, quantities, cash)
    ensures var held := if f.symbol in quantities then quantities[f.symbol] else 0.0;
            var flagged := Flag(issues, f.quantity <= 0.0, ImpossibleQuantity);
            Summed(fills + [f], known, Flag(flagged, known.Some? && f.orderId !in known.value, OrphanFill),
                   quantities[f.symbol := held + SignedQuantity(f)], cash + f.netCash)
  {
    Appended(fills, f, known);
    hide NetQuantity, NetCash, Traded, AnyImpossible, AnyOrphan, SignedQuantity;
  }

  // The accumulating pass over the fills.
  method Accumulate(fills: seq<Fill>, initialCash: real, known: Option<set<Id>>)
    returns (issues: seq<Code>, quantities: map<string, real>, cash: real)
    ensures forall s :: s in quantities <==> Traded(fills, s)
    ensures forall s :: s in quantities ==> quantities[s] == NetQuantity(fills, s)
    ensures cash == initialCash + NetCash(fills)
    ensures ImpossibleQuantity in issues <==> AnyImpossible(fills)
    ensures OrphanFill in issues <==> AnyOrphan(fills, known)
    ensures forall c :: c in issues ==> c == ImpossibleQuantity || c == OrphanFill
  {
    issues, quantities, cash := [], map[], initialCash;
    assert fills[..0] == [] && fills[..|fills|] == fills;
    assert Summed([], known, [], map[], 0.0);
    hide NetQuantity, NetCash, Traded, AnyImpossible, AnyOrphan, SignedQuantity;
    for i := 0 to |fills|
      invariant Summed(fills[..i], known, issues, quantities, cash - initialCash)
    {
      var f := fills[i];
      SummedAppend(fills[..i], known, issues, quantities, cash - initialCash, f);
      assert fills[..i + 1] == fills[..i] + [f];
      assert cash + f.netCash - initialCash == cash - initialCash + f.netCash;
      issues := Flag(issues, f.quantity <= 0.0, ImpossibleQuantity);
      var held := if f.symbol in quantities then quantities[f.symbol] else 0.0;
      quantities := quantities[f.symbol := held + SignedQuantity(f)];
      cash := cash + f.netCash;
      issues := Flag(issues, known.Some? && f.orderId !in known.value, OrphanFill);
    }
  }

  method ComparePositions(p: PaperPortfolio, quantities: map<string, real>) returns (issues: seq<Code>)
    ensures PositionMismatch in issues <==>
            exists s :: s in quantities && Apart(Quantity(p.View().book, s), quantities[s], EPS6)
    ensures NegativeHoldings in issues <==> exists s :: s in quantities && Quantity(p.View().book, s) < -EPS6
    ensures forall c :: c in issues ==> c == PositionMismatch || c == NegativeHoldings
  {
    issues := [];
    var left := quantities.Keys;
    while left != {}
      invariant left <= quantities.Keys
      invariant PositionMismatch in issues <==>
                exists s :: s in quantities && s !in left && Apart(Quantity(p.View().book, s), quantities[s], EPS6)
      invariant NegativeHoldings in issues <==>
                exists s :: s in quantities && s !in left && Quantity(p.View().book, s) < -EPS6
      invariant forall c :: c in issues ==> c == PositionMismatch || c == NegativeHoldings
      decreases |left|
    {
      var s :| s in left;
      var actual := Quantity(p.portfolio.View(), s);
      if Apart(actual, quantities[s], EPS6) {
        issues := issues + [PositionMismatch];
      }
      if actual < -EPS6 {
        issues := issues + [NegativeHoldings];
      }
      left := left - {s};
    }
  }

  method HasDuplicates(fills: seq<Fill>) returns (found: bool)
    ensures found == !DistinctIds(fills)
  {
    var seen: set<Id> := {};
    for i := 0 to |fills|
      invariant seen == FillIds(fills[..i]) && DistinctIds(fills[..i])
    {
      assert fills[..i + 1] == fills[..i] + [fills[i]];
      if fills[i].id in seen {
        return true;
      }
      seen := seen + {fills[i].id};
    }
    assert fills[..|fills|] == fills;
    return false;
  }

  predicate FromBook(c: Code) {
    c in {CashMismatch, NegativeCash, LedgerSetMismatch, EquityIdentity}
  }

  // The comparisons of the book's totals.
  method CompareTotals(p: PaperPortfolio, fills: seq<Fill>, cash: real, allowNegative: bool, ghost initialCash: real,
                       ghost known: Option<set<Id>>, ghost audit: Option<set<Id>>)
    returns (issues: seq<Code>)
    requires cash == initialCash + NetCash(fills)
    ensures forall c :: c in issues <==>
              FromBook(c) && Finding(c, p.View(), fills, initialCash, allowNegative, known, audit)
  {
    hide MarketValue, NetQuantity, NetCash, Traded, DistinctIds, Quantity, Apart, LedgerIds, FillIds;
    hide AnyImpossible, AnyOrphan;
    var balance := p.portfolio.cash;
    var value := p.portfolio.TotalMarketValue();
    var equity := balance + value;
    issues := Flag([], Apart(balance, cash, EPS6), CashMismatch);
    issues := Flag(issues, !allowNegative && balance < -EPS6, NegativeCash);
    issues := Flag(issues, LedgerIds(p.View()) != p.applied, LedgerSetMismatch);
    issues := Flag(issues, Apart(equity, balance + value, EPS6), EquityIdentity);
  }

  // The comparison with the fill ids of the audit log, where one is kept.
  method CompareAudit(fills: seq<Fill>, audit: Option<set<Id>>) returns (issues: seq<Code>)
    ensures MissingInAudit in issues <==> audit.Some? && !(FillIds(fills) <= audit.value)
    ensures OrphanAudit in issues <==> audit.Some? && !(audit.value <= FillIds(fills))
    ensures forall c :: c in issues ==> c == MissingInAudit || c == OrphanAudit
  {
    issues := [];
    var ids := FillIds(fills);
    if audit.Some? {
      DifferenceEmpty(ids, audit.value);
      DifferenceEmpty(audit.value, ids);
      issues := Flag(issues, ids - audit.value != {}, MissingInAudit);
      issues := Flag(issues, audit.value - ids != {}, OrphanAudit);
    }
  }

  // The four passes and the search for duplicates report every code between them.
  lemma EveryCode(p: PaperBook, fills: seq<Fill>, initialCash: real, allowNegative: bool, known: Option<set<Id>>,
                  audit: Option<set<Id>>, quantities: map<string, real>, fromFills: seq<Code>,
                  fromPositions: seq<Code>, fromTotals: seq<Code>, fromAudit: seq<Code>)
    requires forall s :: s in quantities <==> Traded(fills, s)
    requires forall s :: s in quantities ==> quantities[s] == NetQuantity(fills, s)
    requires ImpossibleQuantity in fromFills <==> AnyImpossible(fills)
    requires OrphanFill in fromFills <==> AnyOrphan(fills, known)
    requires forall c :: c in fromFills ==> c == ImpossibleQuantity || c == OrphanFill
    requires PositionMismatch in fromPositions <==>
             exists s :: s in quantities && Apart(Quantity(p.book, s), quantities[s], EPS6)
    requires NegativeHoldings in fromPositions <==> exists s :: s in quantities && Quantity(p.book, s) < -EPS6
    requires forall c :: c in fromPositions ==> c == PositionMismatch || c == NegativeHoldings
    requires forall c :: c in fromTotals <==>
               FromBook(c) && Finding(c, p, fills, initialCash, allowNegative, known, audit)
    requires MissingInAudit in fromAudit <==> audit.Some? && !(FillIds(fills) <= audit.value)
    requires OrphanAudit in fromAudit <==> audit.Some? && !(audit.value <= FillIds(fills))
    requires forall c :: c in fromAudit ==> c == MissingInAudit || c == OrphanAudit
    ensures forall c :: Finding(c, p, fills, initialCash, allowNegative, known, audit) <==>
              c in fromFills + fromPositions + fromTotals + fromAudit || (c == DuplicateFill && !DistinctIds(fills))
  {
    hide MarketValue, NetQuantity, NetCash, Traded, DistinctIds, Quantity, Apart, LedgerIds, FillIds;
    hide AnyImpossible, AnyOrphan, Equity;
  }

  // Sound and complete: a code is reported exactly when its meaning holds.
  method Reconcile(p: PaperPortfolio, fills: seq<Fill>, initialCash: real, allowNegative: bool,
                   known: Option<set<Id>>, audit: Option<set<Id>>)
    returns (issues: seq<Code>)
    ensures forall c :: c in issues <==> Finding(c, p.View(), fills, initialCash, allowNegative, known, audit)
  {
    var duplicates := HasDuplicates(fills);
    var fromFills, quantities, cash := Accumulate(fills, initialCash, known);
    var fromPositions := ComparePositions(p, quantities);
    var fromTotals := CompareTotals(p, fills, cash, allowNegative, initialCash, known, audit);
    var fromAudit := CompareAudit(fills, audit);
    issues := Flag(fromFills + fromPositions + fromTotals + fromAudit, duplicates, DuplicateFill);
    EveryCode(p.View(), fills, initialCash, allowNegative, known, audit, quantities, fromFills, fromPositions,
              fromTotals, fromAudit);
    hide Finding, FromBook, Traded, NetQuantity, NetCash, AnyImpossible, AnyOrphan, DistinctIds;
  }
}
