// The execution gateway as a function on values, with the mock venue inside: execution/gateway.py,
// execution/dry_run.py and execution/recovery.py.

module Gateways {
  import opened Trading
  import opened Sums
  import opened KillSwitches
  import opened LiveOrders
  import opened LiveRisk
  import opened LiveReconciliation
  import MockBroker

  datatype Config = Config(session: string, initialCash: real, effective: CapitalLimits)

  datatype Gateway = Gateway(
    started: bool, blocked: Option<string>, eligible: bool, approved: bool, kill: Kill, store: Store,
    broker: MockBroker.Mock, requests: seq<MockBroker.Request>, positions: map<string, real>, cash: real,
    capitalUsed: real, epochs: map<string, nat>, load: Load)

  function New(cfg: Config, behavior: MockBroker.Behavior): Gateway {
    Gateway(false, None, false, false, ARMED, NO_RECORDS,
            MockBroker.Mock(behavior, 0.5, false, map[], map[], map[], cfg.initialCash, 0, 0), [], map[],
            cfg.initialCash, 0.0, map[], Load(0, 0.0))
  }

  // What a caller submits; an Order's quantity is positive by construction.
  datatype Ask = Ask(intentId: string, order: Order, refPrice: real, needLive: bool, needOperator: bool)

  predicate ValidAsk(a: Ask) {
    a.order.quantity > 0.0
  }

  datatype Reply =
    | Refused(reason: string)
    | Answered(accepted: bool, clientId: string, state: BrokerState)
    | Raised

  // Valuing every position at the order's own reference price.
  ghost function Exposures(positions: map<string, real>, refPrice: real): map<string, real> {
    map s | s in positions :: Value(positions[s], refPrice)
  }

  ghost function RiskVerdict(cfg: Config, g: Gateway, a: Ask): Option<string> {
    var exposure := Sum(Exposures(g.positions, a.refPrice));
    CheckOrder(cfg.effective, g.load, g.kill.triggered, a.order, a.refPrice,
               MockBroker.Get(g.positions, a.order.symbol),
               exposure, g.cash + exposure, g.capitalUsed, cfg.initialCash)
  }

  // Everything that stops a submission before the venue is asked; None lets it through.
  ghost function Gate(cfg: Config, g: Gateway, a: Ask): Option<string> {
    if g.blocked.Some? then g.blocked
    else if g.kill.triggered then Some("kill_switch")
    else if a.needLive && !g.eligible then Some("live_authorization_blocked")
    else if a.needOperator && !g.approved then Some("operator_approval_required")
    else if a.order.orderType != Market then Some("unsupported_order_type")
    else if MockBroker.Fractional(a.order.quantity) then Some("fractional_quantity_unsupported")
    else
      match RiskVerdict(cfg, g, a)
      case Some(reason) => Some(reason)
      case None => CanRetry(g.store, a.intentId)
  }

  function EpochOf(g: Gateway, intentId: string): nat {
    if intentId in g.epochs then g.epochs[intentId] else 0
  }

  function RequestFor(cfg: Config, g: Gateway, a: Ask): MockBroker.Request {
    var id := ClientOrderId(cfg.session, a.intentId, EpochOf(g, a.intentId));
    MockBroker.Request(id, a.order.symbol, a.order.side, a.order.quantity, cfg.session, a.intentId, a.refPrice)
  }

  // _apply_internal_fill
  function FillInternally(g: Gateway, o: Order, filled: real, price: real): Gateway {
    var held := MockBroker.Get(g.positions, o.symbol);
    var bought := o.side == Buy;
    g.(positions := g.positions[o.symbol := if bought then held + filled else held - filled],
       cash := if bought then g.cash - Value(filled, price) else g.cash + Value(filled, price),
       capitalUsed := if bought then g.capitalUsed + Value(filled, price) else g.capitalUsed)
  }

  // The pre-submit records are written before the venue is asked.
  function Asked(cfg: Config, g: Gateway, a: Ask): Gateway {
    var r := RequestFor(cfg, g, a);
    var epoch := EpochOf(g, a.intentId);
    var created := Record(r.clientId, a.intentId, cfg.session, epoch, CREATED, None, 0.0);
    g.(store := Put(Put(g.store, created), created.(state := SUBMITTED)), requests := g.requests + [r])
  }

  function AnswerRecord(cfg: Config, g: Gateway, intentId: string, resp: MockBroker.Response): Record {
    var epoch := EpochOf(g, intentId);
    Record(ClientOrderId(cfg.session, intentId, epoch), intentId, cfg.session, epoch, resp.state, resp.brokerOrderId,
           resp.filled)
  }

  // A settled answer closes the intent's epoch.
  function EpochsAfter(g: Gateway, intentId: string, s: BrokerState): map<string, nat> {
    if s in {REJECTED, FILLED, PARTIALLY_FILLED} then g.epochs[intentId := EpochOf(g, intentId) + 1] else g.epochs
  }

  // An accepted answer with a quantity moves the internal book at the venue's price and counts towards the load.
  function Counted(g: Gateway, a: Ask, resp: MockBroker.Response): Gateway {
    if resp.state == UNKNOWN || resp.state == REJECTED || resp.filled <= 0.0 then g
    else
      var price := if resp.avgPrice.Some? && resp.avgPrice.value != 0.0 then resp.avgPrice.value else a.refPrice;
      FillInternally(g, a.order, resp.filled, price)
      .(load := Load(g.load.orderCount + 1, g.load.turnover + Value(resp.filled, a.refPrice)))
  }

  // The venue's answer is recorded, counted, and closes the epoch.
  function Taken(cfg: Config, g: Gateway, a: Ask, resp: MockBroker.Response): Gateway {
    Counted(g, a, resp).(store := Put(g.store, AnswerRecord(cfg, g, a.intentId, resp)),
                         epochs := EpochsAfter(g, a.intentId, resp.state))
  }

  // submit_intent
  ghost function Submit(cfg: Config, g: Gateway, a: Ask): (Gateway, Reply) {
    if !g.started then (g, Raised)
    else
      match Gate(cfg, g, a)
      case Some(reason) => (g, Refused(reason))
      case None =>
        var r := RequestFor(cfg, g, a);
        var g1 := Asked(cfg, g, a);
        var (broker, outcome) := MockBroker.Submit(g.broker, r);
        var g2 := g1.(broker := broker);
        match outcome
        case Raised => (g2, Raised)
        case Responded(resp) =>
          (Taken(cfg, g2, a, resp),
           Answered(resp.state != UNKNOWN && resp.state != REJECTED, r.clientId, resp.state))
  }

  // ---- reconciliation against the venue

  // Every listed record, position and the cash are undisputed.
  ghost predicate Agrees(g: Gateway) {
    && (forall i, c :: i in g.store.byIntent && c in g.store.byIntent[i] && c in g.store.byClient ==>
          !RecordDisputed(g.store.byClient[c], MockBroker.StateAt(g.broker, c)))
    && (forall s :: !PositionDisputed(g.positions, MockBroker.ReportedPositions(g.broker), s))
    && !Apart(g.cash, g.broker.cash, CASH_TOL)
  }

  // reconcile: on any dispute the gateway blocks itself and trips the switch.
  ghost function Reconciled(g: Gateway): Gateway {
    if Agrees(g) then g
    else g.(blocked := Some("reconciliation_failed"), kill := Activate(g.kill, "reconciliation_failed", "system"))
  }

  datatype Recovery = Recovered | NotStarted | NeedsManualAdopt | StillUnknown | ReconciliationFailed | SwitchActive

  predicate UnknownRecord(st: Store, i: string, c: string) {
    i in st.byIntent && c in st.byIntent[i] && c in st.byClient && st.byClient[c].state == UNKNOWN
  }

  ghost predicate AnyUnknown(st: Store) {
    exists i, c :: UnknownRecord(st, i, c)
  }

  // An unknown record whose order the venue shows in state s.
  ghost predicate UnknownSeenAs(g: Gateway, s: BrokerState) {
    exists i, c :: UnknownRecord(g.store, i, c) && MockBroker.StateAt(g.broker, c) == s
  }

  // recover_gateway walks a dictionary, so which unknown record it meets first is left open.
  ghost predicate Recovers(g: Gateway, g': Gateway, result: Recovery) {
    if !g.started then result == NotStarted && g' == g
    else if UnknownSeenAs(g, FILLED) || UnknownSeenAs(g, UNKNOWN) then
      && g' == g
      && if result == NeedsManualAdopt then UnknownSeenAs(g, FILLED)
         else result == StillUnknown && UnknownSeenAs(g, UNKNOWN)
    else
      && g' == Reconciled(g)
      && result == (if !Agrees(g) then ReconciliationFailed else if g.kill.triggered then SwitchActive else Recovered)
  }

  // ---- runs

  datatype Command =
    | Start(eligible: bool) | Approve | Trip(reason: string, actor: string) | Rearm(reason: string, actor: string)
    | StopVenue | Script(behavior: MockBroker.Behavior, ratio: real) | Place(ask: Ask) | Check

  predicate ValidCommand(c: Command) {
    match c
    case Place(a) => ValidAsk(a)
    case Script(_, ratio) => 0.0 <= ratio <= 1.0
    case _ => true
  }

  ghost function Obey(cfg: Config, g: Gateway, c: Command): Gateway {
    match c
    case Start(eligible) =>
      g.(started := true, eligible := eligible,
         broker := g.broker.(connected := g.broker.behavior != MockBroker.Disconnect))
    case Approve => g.(approved := true)
    case Trip(reason, actor) => g.(kill := Activate(g.kill, reason, actor))
    case Rearm(reason, actor) => g.(kill := Reset(g.kill, reason, actor))
    case StopVenue => g.(broker := g.broker.(connected := false))
    case Script(behavior, ratio) => g.(broker := g.broker.(behavior := behavior, ratio := ratio))
    case Place(a) => Submit(cfg, g, a).0
    case Check => Reconciled(g)
  }

  ghost function Run(cfg: Config, g: Gateway, cs: seq<Command>): Gateway
    decreases |cs|
  {
    if cs == [] then g else Run(cfg, Obey(cfg, g, cs[0]), cs[1..])
  }
}
