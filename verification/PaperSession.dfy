// The event-driven paper kernel as a function on values: paper/session.py.
// Each function gives the state the session is left in; an exception halts it in whatever state it had reached.

module PaperSessions {
  import opened Trading
  import opened Ledger
  import opened PaperOrders
  import opened KillSwitches
  import opened MarketData
  import opened PaperRisk
  import opened PaperExecution
  import opened PaperBooks

  datatype Config = Config(exec: ExecConfig, feed: FeedConfig, risk: PaperRiskConfig, initialCash: real,
                           allowNegativeCash: bool)

  // What the configuration's validators and the model registry enforce; a calendar is always required if present.
  predicate ValidConfig(cfg: Config) {
    cfg.initialCash > 0.0 && 0.0 < cfg.exec.ratio <= 1.0 && cfg.exec.bps >= 0.0
    && cfg.feed.requireCalendar == cfg.feed.calendar.Some?
  }

  datatype Halt = InvalidData(code: string) | LedgerRefused | Exception(fault: Fault) | ReconciliationFailed

  // The audit note of a generated fill: whose fill it is, and at which event it happened.
  datatype Note = Note(intent: nat, eventSeq: int)

  // Intents are named by their position in intents; pending holds such names.
  datatype Session = Session(
    started: bool, stopped: bool, halt: Option<Halt>, kill: Kill, usage: Usage, feed: Watermarks, venue: Venue,
    book: PaperBook, intents: seq<Intent>, fills: seq<Fill>, notes: seq<Note>, history: map<string, seq<Bar>>,
    pending: seq<nat>, shown: seq<Context>)

  function New(cfg: Config): Session {
    Session(false, false, None, ARMED, Usage(0, 0.0, None), NOTHING_SEEN, Venue(0, {}), Empty(cfg.initialCash),
            [], [], [], map[], [], [])
  }

  predicate Names(s: Session, names: seq<nat>) {
    forall j :: 0 <= j < |names| ==> names[j] < |s.intents|
  }

  predicate Due(i: Intent, e: Event) {
    i.scheduled == Some(e.seqNo) && i.order.symbol == e.bar.symbol
  }

  predicate Closed(cfg: Config, e: Event) {
    ClosedDay(cfg.feed, e)
  }

  function AttemptAt(cfg: Config, s: Session, e: Event, k: nat): Attempt
    requires k < |s.intents|
  {
    ExecuteAtOpen(cfg.exec, s.venue, s.intents[k], e.bar.timestamp, e.bar.open, s.book.book.cash,
                  Quantity(s.book.book, e.bar.symbol), Closed(cfg, e), false)
  }

  // A remainder is rescheduled for the next sequence number.
  function Reschedule(i: Intent, e: Event): Intent {
    if i.status == PartiallyFilled then i.(scheduled := Some(e.seqNo + 1)) else i
  }

  // Attempt one due intent at the open.
  function ExecuteOne(cfg: Config, s: Session, e: Event, k: nat): (r: Session)
    requires k < |s.intents|
    ensures |r.intents| == |s.intents| && r.pending == s.pending
  {
    var a := AttemptAt(cfg, s, e, k);
    var s1 := s.(venue := a.venue, intents := s.intents[k := a.intent]);
    match a.outcome
    case Dropped(_) => s1
    case Threw(fault) => s1.(halt := Some(Exception(fault)))
    case FilledWith(f) =>
      var s2 := s1.(fills := s.fills + [f], notes := s.notes + [Note(k, e.seqNo)], book := Applied(s.book, f));
      if CannotApply(s.book, f) then s2.(halt := Some(LedgerRefused))
      else s2.(intents := s.intents[k := Reschedule(a.intent, e)])
  }

  // Walk the queue; still collects what stays pending.
  function ExecuteQueue(cfg: Config, s: Session, e: Event, todo: seq<nat>, still: seq<nat>): (r: (Session, seq<nat>))
    requires Names(s, todo) && Names(s, still)
    ensures |r.0.intents| == |s.intents| && r.0.pending == s.pending && Names(r.0, r.1)
    decreases |todo|
  {
    if todo == [] || s.halt.Some? then (s, still)
    else
      var k := todo[0];
      if !Due(s.intents[k], e) then ExecuteQueue(cfg, s, e, todo[1..], still + [k])
      else
        var s' := ExecuteOne(cfg, s, e, k);
        ExecuteQueue(cfg, s', e, todo[1..], if s'.intents[k].status == PartiallyFilled then still + [k] else still)
  }

  function ExecutePending(cfg: Config, s: Session, e: Event): (r: Session)
    requires Names(s, s.pending)
    ensures Names(r, r.pending)
  {
    var (s', still) := ExecuteQueue(cfg, s, e, s.pending, []);
    if s'.halt.Some? then s' else s'.(pending := still)
  }

  function HistoryOf(s: Session, symbol: string): seq<Bar> {
    if symbol in s.history then s.history[symbol] else []
  }

  // Mark the book and build the context of the close.
  function Observed(s: Session, e: Event): Session {
    var sym := e.bar.symbol;
    var history := HistoryOf(s, sym) + [e.bar];
    var book := SetMark(s.book.book, sym, e.bar.close);
    s.(history := s.history[sym := history],
       book := s.book.(book := book),
       shown := s.shown + [Context(e.bar.timestamp, sym, history, Quantity(book, sym), book.cash, Some("TRUE"))])
  }

  // The intent an order becomes once validated, screened and accepted or rejected.
  ghost function Screened(cfg: Config, s: Session, e: Event, signal: Signal, order: Order): Intent {
    var i := MakeIntent(cfg.exec.session, order, signal, e.seqNo);
    match StructuralReason(i.order)
    case Some(why) => i.(status := Rejected, reason := Some(why))
    case None =>
      match Screen(cfg.risk, s.usage, s.kill.triggered, i.order, e.bar.close, Quantity(s.book.book, e.bar.symbol),
                   MarketValue(s.book.book), Equity(s.book.book))
      case Some(why) => i.(status := Rejected, reason := Some(why))
      case None => i.(status := Accepted, scheduled := Some(e.seqNo + 1))
  }

  ghost function Submit(cfg: Config, s: Session, e: Event, signal: Signal, order: Order): (r: Session)
    requires Names(s, s.pending)
    ensures Names(r, r.pending)
  {
    var i := Screened(cfg, s, e, signal, order);
    var s1 := s.(intents := s.intents + [i]);
    if i.status == Accepted then
      s1.(usage := Charged(s.usage, order.quantity, e.bar.close), pending := s.pending + [|s.intents|])
    else s1
  }

  ghost function SubmitAll(cfg: Config, s: Session, e: Event, signal: Signal, orders: seq<Order>): (r: Session)
    requires Names(s, s.pending)
    ensures Names(r, r.pending)
    decreases |orders|
  {
    if orders == [] then s else SubmitAll(cfg, Submit(cfg, s, e, signal, orders[0]), e, signal, orders[1..])
  }

  // The strategy's decision at the close, then the equity point.
  ghost function Decide(cfg: Config, strategy: Strategy, s: Session, e: Event): (r: Session)
    requires Names(s, s.pending)
    ensures Names(r, r.pending)
  {
    match strategy(s.shown)
    case Raises => s.(halt := Some(Exception(StrategyFailed)))
    case Decision(signal, orders) =>
      var s' := SubmitAll(cfg, s, e, signal, orders);
      s'.(book := s'.book.(book := Record(s'.book.book, e.bar.timestamp)))
  }

  function Admit(cfg: Config, s: Session, e: Event): Session {
    var issues := Issues(cfg.feed, s.feed, e);
    if issues == [] then s.(feed := Commit(s.feed, e)) else s.(halt := Some(InvalidData(issues[0])))
  }

  predicate Running(s: Session) {
    s.started && !s.stopped && s.halt == None
  }

  // process_event; outside a running session it raises or returns at once, changing nothing.
  ghost function ProcessEvent(cfg: Config, strategy: Strategy, s: Session, e: Event): (r: Session)
    requires Names(s, s.pending)
    ensures Names(r, r.pending)
  {
    if !Running(s) then s
    else
      var s1 := Admit(cfg, s, e);
      if s1.halt.Some? then s1
      else
        var s2 := ExecutePending(cfg, s1, e);
        if s2.halt.Some? then s2 else Decide(cfg, strategy, Observed(s2, e), e)
  }

  ghost function StartSession(s: Session): Session {
    if s.started then s
    else s.(started := true, usage := s.usage.(dayStart := Some(Equity(s.book.book))))
  }

  // ---- runs

  datatype Command =
    | Tick(event: Event) | TripSwitch(reason: string, actor: string) | ResetSwitch(reason: string, actor: string)

  ghost function Obey(cfg: Config, strategy: Strategy, s: Session, c: Command): (r: Session)
    requires Names(s, s.pending)
    ensures Names(r, r.pending)
  {
    match c
    case Tick(e) => ProcessEvent(cfg, strategy, s, e)
    case TripSwitch(reason, actor) => s.(kill := Activate(s.kill, reason, actor))
    case ResetSwitch(reason, actor) => s.(kill := Reset(s.kill, reason, actor))
  }

  ghost function Run(cfg: Config, strategy: Strategy, s: Session, cs: seq<Command>): (r: Session)
    requires Names(s, s.pending)
    ensures Names(r, r.pending)
    decreases |cs|
  {
    if cs == [] then s else Run(cfg, strategy, Obey(cfg, strategy, s, cs[0]), cs[1..])
  }

  // A fresh session, started.
  ghost function Opened(cfg: Config): Session {
    StartSession(New(cfg))
  }
}
