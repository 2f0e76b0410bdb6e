// Event-sourced paper ledgers over the shared portfolio: paper/portfolio.py.

module PaperBooks {
  import opened Trading
  import opened Ledger

  datatype PositionEntry = PositionEntry(seqNo: nat, timestamp: int, symbol: string, delta: real, fillId: Id,
                                         quantityAfter: real)

  datatype CashEntry = CashEntry(seqNo: nat, timestamp: int, delta: real, fillId: Id, cashAfter: real)

  datatype PaperBook = PaperBook(book: Book, positionLedger: seq<PositionEntry>, cashLedger: seq<CashEntry>,
                                 applied: set<Id>)

  function Empty(cash: real): PaperBook {
    PaperBook(Fresh(cash), [], [], {})
  }

  // apply_fill raises on a repeated fill id, or when the portfolio refuses.
  predicate CannotApply(p: PaperBook, f: Fill) {
    f.id in p.applied || Refuses(p.book, f)
  }

  // The ledger rows one fill appends.
  function WithRows(p: PaperBook, f: Fill, before: real): PaperBook {
    var after := Quantity(p.book, f.symbol);
    p.(positionLedger := p.positionLedger +
         [PositionEntry(|p.positionLedger| + 1, f.timestamp, f.symbol, after - before, f.id, after)],
       cashLedger := p.cashLedger + [CashEntry(|p.cashLedger| + 1, f.timestamp, f.netCash, f.id, p.book.cash)])
  }

  // The state left behind, whether or not the call raises.
  function Applied(p: PaperBook, f: Fill): PaperBook {
    if f.id in p.applied then p
    else if Refuses(p.book, f) then p.(book := AfterFill(p.book, f))
    else WithRows(p.(book := AfterFill(p.book, f), applied := p.applied + {f.id}), f, Quantity(p.book, f.symbol))
  }

  class PaperPortfolio {
    const portfolio: Portfolio
    var positionLedger: seq<PositionEntry>
    var cashLedger: seq<CashEntry>
    var applied: set<Id>

    function View(): PaperBook
      reads this, portfolio
    {
      PaperBook(portfolio.View(), positionLedger, cashLedger, applied)
    }

    constructor (cash: real)
      ensures fresh(portfolio) && View() == Empty(cash)
    {
      portfolio := new Portfolio(cash);
      positionLedger, cashLedger, applied := [], [], {};
    }

    // ok is false when the original raises.
    method ApplyFill(f: Fill) returns (ok: bool)
      requires f.quantity > 0.0
      modifies this, portfolio
      ensures ok == !CannotApply(old(View()), f)
      ensures View() == Applied(old(View()), f)
    {
      if f.id in applied {
        return false;
      }
      ghost var b := portfolio.View();
      var before := Quantity(portfolio.View(), f.symbol);
      ok := portfolio.ApplyFill(f);
      if !ok {
        return;
      }
      hide EntryOf, Value, GainOf, SlippageOf;
      applied := applied + {f.id};
      var after := Quantity(portfolio.View(), f.symbol);
      var delta := after - before;
      if f.side == Sell && delta > 0.0 {
        assert false;
        return false;
      }
      positionLedger := positionLedger +
        [PositionEntry(|positionLedger| + 1, f.timestamp, f.symbol, delta, f.id, after)];
      cashLedger := cashLedger + [CashEntry(|cashLedger| + 1, f.timestamp, f.netCash, f.id, portfolio.cash)];
    }
  }
}
