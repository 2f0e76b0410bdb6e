// The drift comparison between a finished backtest and a finished paper session: phase13/drift.py.

module Drift {
  import opened Trading
  import opened Ledger
  import opened PaperSessions
  import opened Simulation
  import Backtest

  const QTY_TOL := 0.000001
  const PRICE_TOL := 0.0001
  const CASH_TOL := 0.05

  datatype Class = NoDrift | Critical

  datatype Finding =
    | FillCount | QuantityAt(index: nat) | PriceAt(index: nat) | TimeAt(index: nat) | EquityGap | CashGap

  // The fill events of a backtest log.
  function LoggedFills(log: seq<Backtest.LogEntry>): seq<Fill> {
    if log == [] then []
    else
      var last := log[|log| - 1];
      LoggedFills(log[..|log| - 1]) + (if last.FillLogged? then [last.fill] else [])
  }

  predicate Holds(x: Finding, bt: seq<Fill>, btEquity: real, btCash: real, paper: seq<Fill>, paperEquity: real,
                  paperCash: real) {
    match x
    case FillCount => |bt| != |paper|
    case QuantityAt(i) => i < |bt| && i < |paper| && Apart(bt[i].quantity, paper[i].quantity, QTY_TOL)
    case PriceAt(i) => i < |bt| && i < |paper| && Apart(bt[i].price, paper[i].price, PRICE_TOL)
    case TimeAt(i) => i < |bt| && i < |paper| && bt[i].timestamp != paper[i].timestamp
    case EquityGap => Apart(paperEquity, btEquity, CASH_TOL)
    case CashGap => Apart(paperCash, btCash, CASH_TOL)
  }

  ghost predicate NothingFound(bt: seq<Fill>, btEquity: real, btCash: real, paper: seq<Fill>, paperEquity: real,
                         paperCash: real) {
    forall x :: !Holds(x, bt, btEquity, btCash, paper, paperEquity, paperCash)
  }

  function AddIf(fs: seq<Finding>, condition: bool, x: Finding): (r: seq<Finding>)
    ensures forall y :: y in r <==> y in fs || (condition && y == x)
  {
    if condition then fs + [x] else fs
  }

  // Sound and complete: a finding is reported exactly when it holds, and any finding is critical.
  method Compare(log: seq<Backtest.LogEntry>, btEquity: real, btCash: real, paper: seq<Fill>, paperEquity: real,
                 paperCash: real)
    returns (verdict: Class, findings: seq<Finding>)
    ensures forall x :: x in findings <==> Holds(x, LoggedFills(log), btEquity, btCash, paper, paperEquity, paperCash)
    ensures verdict == NoDrift <==> NothingFound(LoggedFills(log), btEquity, btCash, paper, paperEquity, paperCash)
  {
    var bt := LoggedFills(log);
    hide LoggedFills, Apart;
    findings := AddIf([], |bt| != |paper|, FillCount);
    var n := if |bt| <= |paper| then |bt| else |paper|;
    for i := 0 to n
      invariant forall x :: x in findings <==>
                  && Holds(x, bt, btEquity, btCash, paper, paperEquity, paperCash)
                  && (match x case FillCount => true case QuantityAt(j) => j < i case PriceAt(j) => j < i
                              case TimeAt(j) => j < i case _ => false)
    {
      findings := AddIf(findings, Apart(bt[i].quantity, paper[i].quantity, QTY_TOL), QuantityAt(i));
      findings := AddIf(findings, Apart(bt[i].price, paper[i].price, PRICE_TOL), PriceAt(i));
      findings := AddIf(findings, bt[i].timestamp != paper[i].timestamp, TimeAt(i));
    }
    findings := AddIf(findings, Apart(paperEquity, btEquity, CASH_TOL), EquityGap);
    findings := AddIf(findings, Apart(paperCash, btCash, CASH_TOL), CashGap);
    verdict := if findings == [] then NoDrift else Critical;
    assert findings != [] ==> findings[0] in findings;
  }

  // ---- the log records exactly the book's fills

  lemma LoggedAppend(log: seq<Backtest.LogEntry>, x: Backtest.LogEntry)
    ensures LoggedFills(log + [x]) == LoggedFills(log) + (if x.FillLogged? then [x.fill] else [])
  {
    assert (log + [x])[..|log|] == log;
  }

  lemma {:induction false} PlaceAllLogsNoFill(cfg: Backtest.Config, bars: seq<Bar>, i: nat, s: Backtest.State,
                                              orders: seq<Order>)
    requires i < |bars| && Backtest.PlaceAll(cfg, bars, i, s, orders).Ok?
    ensures LoggedFills(Backtest.PlaceAll(cfg, bars, i, s, orders).value.log) == LoggedFills(s.log)
    ensures Backtest.PlaceAll(cfg, bars, i, s, orders).value.book == s.book
    decreases |orders|
  {
    if orders != [] {
      var s' := Backtest.Place(cfg, bars, i, s, orders[0]).value;
      PlaceLogsNoFill(cfg, bars, i, s, orders[0]);
      hide Backtest.Place, LoggedFills;
      PlaceAllLogsNoFill(cfg, bars, i, s', orders[1..]);
    }
  }

  lemma PlaceLogsNoFill(cfg: Backtest.Config, bars: seq<Bar>, i: nat, s: Backtest.State, order: Order)
    requires i < |bars| && Backtest.Place(cfg, bars, i, s, order).Ok?
    ensures LoggedFills(Backtest.Place(cfg, bars, i, s, order).value.log) == LoggedFills(s.log)
    ensures Backtest.Place(cfg, bars, i, s, order).value.book == s.book
  {
    hide LoggedFills, MarketValue;
    forall x: Backtest.LogEntry
      ensures LoggedFills(s.log + [x]) == LoggedFills(s.log) + (if x.FillLogged? then [x.fill] else [])
    {
      LoggedAppend(s.log, x);
    }
    if s.pending.Some? {
      var c := Backtest.CancelledLogged(bars[i].timestamp, s.pending.value.order, "superseded");
      forall x: Backtest.LogEntry
        ensures LoggedFills(s.log + [c] + [x]) == LoggedFills(s.log + [c]) + (if x.FillLogged? then [x.fill] else [])
      {
        LoggedAppend(s.log + [c], x);
      }
    }
    assert s.log + [] == s.log;
  }

  lemma StepLogs(cfg: Backtest.Config, strategy: Strategy, bars: seq<Bar>, i: nat, s: Backtest.State)
    requires i < |bars| && Backtest.Step(cfg, strategy, bars, i, s).Ok? && LoggedFills(s.log) == s.book.fills
    ensures var t := Backtest.Step(cfg, strategy, bars, i, s).value; LoggedFills(t.log) == t.book.fills
  {
    hide Backtest.PlaceAll, LoggedFills, MarketValue, HoldingAfter, Backtest.Execute;
    forall x: Backtest.LogEntry
      ensures LoggedFills(s.log + [x]) == LoggedFills(s.log) + (if x.FillLogged? then [x.fill] else [])
    {
      LoggedAppend(s.log, x);
    }
    var s1 := Backtest.FillPending(cfg, bars[i], s).value;
    var (s2, orders) := Backtest.Observe(strategy, bars, i, s1).value;
    LoggedAppend(s1.log, s2.log[|s1.log|]);
    PlaceAllLogsNoFill(cfg, bars, i, s2, orders);
  }

  lemma {:induction false} RunLogs(cfg: Backtest.Config, strategy: Strategy, bars: seq<Bar>, k: nat)
    requires k <= |bars| && Backtest.After(cfg, strategy, bars, k).Ok?
    ensures var s := Backtest.After(cfg, strategy, bars, k).value; LoggedFills(s.log) == s.book.fills
  {
    hide Backtest.Step, LoggedFills;
    if k == 0 {
      assert LoggedFills([]) == [] by { NoLog(); }
    } else {
      RunLogs(cfg, strategy, bars, k - 1);
      StepLogs(cfg, strategy, bars, k - 1, Backtest.After(cfg, strategy, bars, k - 1).value);
    }
  }

  lemma NoLog()
    ensures LoggedFills([]) == []
  {
  }

  lemma SameTradesNoDrift(bt: seq<Fill>, paper: seq<Fill>, equity: real, cash: real)
    requires SameTrades(bt, paper)
    ensures NothingFound(bt, equity, cash, paper, equity, cash)
  {
  }

  // Replaying the backtest's bars through a comparable paper session leaves nothing for the comparison to find.
  lemma {:induction false} ReplayHasNoDrift(bt: Backtest.Config, cfg: Config, strategy: Strategy, es: seq<Event>,
                                            bars: seq<Bar>, symbol: string, first: nat)
    requires Matched(bt, cfg, bars) && Replays(cfg, es, bars, symbol, first) && Comparable(strategy)
    requires Backtest.After(bt, strategy, bars, |bars|).Ok?
    ensures var b := Backtest.After(bt, strategy, bars, |bars|).value;
            var s := Run(cfg, strategy, Opened(cfg), Ticks(es));
            NothingFound(LoggedFills(b.log), Equity(b.book), b.book.cash, s.fills, Equity(s.book.book),
                         s.book.book.cash)
  {
    assert |es| == |bars| && es[..|bars|] == es;
    EnginesAgree(bt, cfg, strategy, es, bars, symbol, first, |bars|);
    RunLogs(bt, strategy, bars, |bars|);
    var b := Backtest.After(bt, strategy, bars, |bars|).value;
    var s := Run(cfg, strategy, Opened(cfg), Ticks(es));
    assert b.book.cash == s.book.book.cash;
    hide *;
    SameTradesNoDrift(b.book.fills, s.fills, Equity(b.book), b.book.cash);
  }
}
