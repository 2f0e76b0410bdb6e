// The execution gateway as an object over its store, risk engine, kill switch and venue: execution/gateway.py and
// execution/recovery.py.

module GatewayKernel {
  import opened Trading
  import opened Sums
  import opened KillSwitches
  import opened LiveOrders
  import opened LiveRisk
  import opened LiveReconciliation
  import opened Gateways
  import MockBroker

  // Every record is filed under its own client id.
  ghost predicate Keyed(st: Store) {
    forall c :: c in st.byClient ==> st.byClient[c].clientId == c
  }

  lemma PutKeyed(st: Store, r: Record)
    ensures Keyed(st) ==> Keyed(Put(st, r))
  {
  }

  // Walking part of the positions.
  lemma ExposureStep(positions: map<string, real>, refPrice: real, todo: set<string>, s: string)
    requires s in todo && todo <= positions.Keys
    ensures Sum(Exposures(positions - (todo - {s}), refPrice))
            == Sum(Exposures(positions - todo, refPrice)) + Value(positions[s], refPrice)
  {
    var next, now := Exposures(positions - (todo - {s}), refPrice), Exposures(positions - todo, refPrice);
    hide Value;
    SumSplit(next, s);
    assert next - {s} == now;
  }

  lemma FillElsewhere(g: Gateway, st: Store, o: Order, filled: real, price: real)
    ensures FillInternally(g.(store := st), o, filled, price) == FillInternally(g, o, filled, price).(store := st)
    ensures FillInternally(g, o, filled, price).epochs == g.epochs
  {
    hide Value, MockBroker.Get;
  }

  // Counting an answer neither reads nor writes the store and the epochs.
  lemma CountedElsewhere(g: Gateway, st: Store, a: Ask, resp: MockBroker.Response)
    ensures Counted(g.(store := st), a, resp) == Counted(g, a, resp).(store := st)
    ensures Counted(g, a, resp).epochs == g.epochs
  {
    var price := if resp.avgPrice.Some? && resp.avgPrice.value != 0.0 then resp.avgPrice.value else a.refPrice;
    FillElsewhere(g, st, a.order, resp.filled, price);
    hide Value, FillInternally;
  }

  // Taking an answer: record it, count it, close the epoch.
  lemma TakenInParts(cfg: Config, g: Gateway, a: Ask, resp: MockBroker.Response)
    ensures var g1 := g.(store := Put(g.store, AnswerRecord(cfg, g, a.intentId, resp)));
            && Taken(cfg, g, a, resp) == Counted(g1, a, resp).(epochs := EpochsAfter(g1, a.intentId, resp.state))
            && (resp.state == UNKNOWN ==> Taken(cfg, g, a, resp) == g1)
            && (resp.state == REJECTED ==>
                  Taken(cfg, g, a, resp) == g1.(epochs := g1.epochs[a.intentId := EpochOf(g1, a.intentId) + 1]))
  {
    CountedElsewhere(g, Put(g.store, AnswerRecord(cfg, g, a.intentId, resp)), a, resp);
    hide Put, AnswerRecord, FillInternally, Value;
  }

  // The records met by walking the intents in done.
  ghost predicate Listed(st: Store, done: set<string>, r: Record) {
    exists i, c :: i in done && i in st.byIntent && c in st.byIntent[i] && c in st.byClient && st.byClient[c] == r
  }

  lemma ListedMore(st: Store, done: set<string>, i: string)
    ensures forall r :: Listed(st, done + {i}, r) <==> Listed(st, done, r) || Listed(st, {i}, r)
  {
  }

  // What a record still unknown here and shown in state s by the venue makes of a recovery.
  predicate StopsRecovery(r: Recovery, s: BrokerState) {
    (r == NeedsManualAdopt && s == FILLED) || (r == StillUnknown && s == UNKNOWN)
  }

  lemma NoRecordIssueIsCash(records: seq<Record>, views: map<string, BrokerState>, internal: map<string, real>,
                            reported: map<string, real>)
    ensures !AmongRecords(CashMismatch, records, views) && !PositionIssue(CashMismatch, internal, reported)
  {
  }

  // An unknown record that the venue shows in a state that stops a recovery.
  ghost predicate Stuck(g: Gateway, i: string, c: string) {
    UnknownRecord(g.store, i, c) && MockBroker.StateAt(g.broker, c) in {FILLED, UNKNOWN}
  }

  lemma NoneStuck(g: Gateway)
    requires forall i, c :: !Stuck(g, i, c)
    ensures !UnknownSeenAs(g, FILLED) && !UnknownSeenAs(g, UNKNOWN)
  {
    forall i, c | UnknownRecord(g.store, i, c)
      ensures !(MockBroker.StateAt(g.broker, c) in {FILLED, UNKNOWN})
    {
      assert !Stuck(g, i, c);
    }
  }

  // The findings are empty exactly when the two parties agree.
  lemma AgreesIff(g: Gateway, records: seq<Record>, views: map<string, BrokerState>, issues: seq<Issue>)
    requires Keyed(g.store) && forall r :: r in records <==> Listed(g.store, g.store.byIntent.Keys, r)
    requires forall r :: r in records ==>
               r.clientId in views && views[r.clientId] == MockBroker.StateAt(g.broker, r.clientId)
    requires var reported := MockBroker.ReportedPositions(g.broker);
             forall x :: x in issues <==>
               || AmongRecords(x, records, views) || PositionIssue(x, g.positions, reported)
               || (x == CashMismatch && Apart(g.cash, g.broker.cash, CASH_TOL))
    ensures issues == [] <==> Agrees(g)
  {
    var reported := MockBroker.ReportedPositions(g.broker);
    NoIssueIff(records, views, g.positions, reported);
    hide RecordDisputed, PositionDisputed, AmongRecords, PositionIssue, Apart, MockBroker.ReportedPositions;
    if issues != [] {
      assert issues[0] in issues;
    }
    assert issues == [] <==> forall x :: x !in issues;
    assert CashMismatch in issues <==> Apart(g.cash, g.broker.cash, CASH_TOL) by {
      NoRecordIssueIsCash(records, views, g.positions, reported);
    }
    assert (forall r :: r in records ==> !RecordDisputed(r, views[r.clientId])) <==>
           (forall i, c :: i in g.store.byIntent && c in g.store.byIntent[i] && c in g.store.byClient ==>
              !RecordDisputed(g.store.byClient[c], MockBroker.StateAt(g.broker, c))) by {
      forall i, c | i in g.store.byIntent && c in g.store.byIntent[i] && c in g.store.byClient
        ensures g.store.byClient[c] in records
      {
        assert Listed(g.store, g.store.byIntent.Keys, g.store.byClient[c]);
      }
    }
  }

  class ExecutionGateway {
    const session: string
    const initialCash: real
    const kill: KillSwitch
    const store: IdempotencyStore
    const broker: MockBroker.MockBrokerAdapter
    const risk: LiveRiskEngine
    var started: bool
    var blocked: Option<string>
    var eligible: bool
    var approved: bool
    var requests: seq<MockBroker.Request>
    var positions: map<string, real>
    var cash: real
    var capitalUsed: real
    var epochs: map<string, nat>

    function Cfg(): Config {
      Config(session, initialCash, risk.effective)
    }

    function View(): Gateway
      reads this, kill, store, broker, risk
    {
      Gateway(started, blocked, eligible, approved, kill.View(), store.View(), broker.View(), requests, positions, cash,
              capitalUsed, epochs, risk.View())
    }

    constructor (session: string, initialCash: real, behavior: MockBroker.Behavior, strategy: CapitalLimits,
                 sessionLimits: CapitalLimits, account: CapitalLimits)
      ensures View() == New(Cfg(), behavior) && this.session == session && this.initialCash == initialCash
      ensures IsMeet(risk.effective, [strategy, sessionLimits, account, PLATFORM])
      ensures Keyed(store.View())
      ensures fresh(kill) && fresh(store) && fresh(broker) && fresh(risk)
    {
      this.session, this.initialCash := session, initialCash;
      kill := new KillSwitch();
      store := new IdempotencyStore();
      broker := new MockBroker.MockBrokerAdapter(initialCash, behavior);
      risk := new LiveRiskEngine(strategy, sessionLimits, account, PLATFORM);
      started, blocked, eligible, approved := false, None, false, false;
      requests, positions, cash, capitalUsed, epochs := [], map[], initialCash, 0.0, map[];
    }

    method StartSession(live: bool)
      modifies this, broker
      ensures View() == Obey(Cfg(), old(View()), Start(live))
    {
      eligible := live;
      broker.Connect();
      started := true;
    }

    method ApproveOperator()
      modifies this
      ensures View() == Obey(Cfg(), old(View()), Approve)
    {
      approved := true;
    }

    method ActivateKillSwitch(reason: string, actor: string)
      modifies kill
      ensures View() == Obey(Cfg(), old(View()), Trip(reason, actor))
    {
      var _ := kill.Trip(reason, actor);
    }

    // Every position at one price.
    method Exposure(refPrice: real) returns (total: real)
      ensures total == Sum(Exposures(positions, refPrice))
    {
      total := 0.0;
      var todo := positions.Keys;
      assert positions - todo == map[];
      while todo != {}
        invariant todo <= positions.Keys
        invariant total == Sum(Exposures(positions - todo, refPrice))
        decreases todo
      {
        var s :| s in todo;
        ExposureStep(positions, refPrice, todo, s);
        total := total + Value(positions[s], refPrice);
        todo := todo - {s};
      }
      assert positions - todo == positions;
    }

    // The checks in the order the original makes them.
    method Admit(a: Ask) returns (why: Option<string>)
      ensures why == Gate(Cfg(), View(), a)
    {
      hide Value, MockBroker.Fractional, CanRetry, CheckOrder, Sum, Exposures;
      if blocked.Some? {
        return blocked;
      }
      if kill.triggered {
        return Some("kill_switch");
      }
      if a.needLive && !eligible {
        return Some("live_authorization_blocked");
      }
      if a.needOperator && !approved {
        return Some("operator_approval_required");
      }
      if a.order.orderType != Market {
        return Some("unsupported_order_type");
      }
      if MockBroker.Fractional(a.order.quantity) {
        return Some("fractional_quantity_unsupported");
      }
      var exposure := Exposure(a.refPrice);
      why := risk.Check(kill.triggered, a.order, a.refPrice, MockBroker.Get(positions, a.order.symbol), exposure,
                        cash + exposure, capitalUsed, initialCash);
      if why.Some? {
        return;
      }
      why := store.Retryable(a.intentId);
    }

    method ApplyInternalFill(o: Order, filled: real, price: real)
      modifies this
      ensures View() == FillInternally(old(View()), o, filled, price)
    {
      hide Value;
      if o.side == Buy {
        positions := positions[o.symbol := MockBroker.Get(positions, o.symbol) + filled];
        cash := cash - Value(filled, price);
        capitalUsed := capitalUsed + Value(filled, price);
      } else {
        positions := positions[o.symbol := MockBroker.Get(positions, o.symbol) - filled];
        cash := cash + Value(filled, price);
      }
    }

    // The records written before the venue is asked.
    method WriteAhead(a: Ask) returns (created: Record, r: MockBroker.Request)
      modifies this, store
      ensures r == RequestFor(Cfg(), old(View()), a) && View() == Asked(Cfg(), old(View()), a)
      ensures old(Keyed(store.View())) ==> Keyed(store.View())
      ensures created.clientId == r.clientId && created.intentId == a.intentId && created.session == session
              && created.epoch == EpochOf(old(View()), a.intentId) && created.filled == 0.0
    {
      hide ClientOrderId, Put, Keyed;
      var epoch := if a.intentId in epochs then epochs[a.intentId] else 0;
      var id := ClientOrderId(session, a.intentId, epoch);
      created := Record(id, a.intentId, session, epoch, CREATED, None, 0.0);
      PutKeyed(store.View(), created);
      store.PutRecord(created);
      created := created.(state := SUBMITTED);
      PutKeyed(store.View(), created);
      store.PutRecord(created);
      r := MockBroker.Request(id, a.order.symbol, a.order.side, a.order.quantity, session, a.intentId, a.refPrice);
      requests := requests + [r];
    }

    method CountFill(a: Ask, resp: MockBroker.Response)
      requires resp.state != UNKNOWN && resp.state != REJECTED
      modifies this, risk
      ensures View() == Counted(old(View()), a, resp)
    {
      hide Value;
      if resp.filled > 0.0 {
        var price := if resp.avgPrice.Some? && resp.avgPrice.value != 0.0 then resp.avgPrice.value else a.refPrice;
        ApplyInternalFill(a.order, resp.filled, price);
        risk.RecordAccepted(Value(resp.filled, a.refPrice));
      }
    }

    // A settled answer moves the intent to its next epoch.
    method CloseEpoch(intentId: string)
      modifies this`epochs
      ensures epochs == old(epochs)[intentId := EpochOf(old(View()), intentId) + 1]
    {
      var epoch := if intentId in epochs then epochs[intentId] else 0;
      epochs := epochs[intentId := epoch + 1];
    }

    method Acknowledge(a: Ask, resp: MockBroker.Response)
      requires resp.state != UNKNOWN && resp.state != REJECTED
      modifies this, risk
      ensures View() == Counted(old(View()), a, resp).(epochs := EpochsAfter(old(View()), a.intentId, resp.state))
    {
      CountedElsewhere(View(), View().store, a, resp);
      hide Counted;
      CountFill(a, resp);
      if resp.state in {FILLED, PARTIALLY_FILLED} {
        CloseEpoch(a.intentId);
      }
    }

    // Recording the venue's answer.
    method TakeAnswer(a: Ask, record: Record, resp: MockBroker.Response) returns (accepted: bool)
      requires record == AnswerRecord(Cfg(), View(), a.intentId, resp)
      modifies this, store, risk
      ensures View() == Taken(Cfg(), old(View()), a, resp)
      ensures accepted == (resp.state != UNKNOWN && resp.state != REJECTED)
      ensures old(Keyed(store.View())) ==> Keyed(store.View())
    {
      ghost var g := View();
      PutKeyed(store.View(), record);
      TakenInParts(Cfg(), g, a, resp);
      hide Put, AnswerRecord, Counted, Keyed, Taken, EpochsAfter, EpochOf;
      store.PutRecord(record);
      assert View() == g.(store := Put(g.store, record));
      if resp.state == UNKNOWN {
        return false;
      }
      if resp.state == REJECTED {
        CloseEpoch(a.intentId);
        return false;
      }
      Acknowledge(a, resp);
      return true;
    }

    method SubmitIntent(a: Ask) returns (reply: Reply)
      modifies this, store, broker, risk
      ensures (View(), reply) == Submit(Cfg(), old(View()), a)
      ensures old(Keyed(store.View())) ==> Keyed(store.View())
    {
      if !started {
        return Raised;
      }
      var why := Admit(a);
      hide Gate, Asked, RequestFor, Taken, MockBroker.Submit, Keyed;
      if why.Some? {
        return Refused(why.value);
      }
      var record, r := WriteAhead(a);
      var outcome := broker.SubmitOrder(r);
      if outcome.Raised? {
        return Raised;
      }
      var resp := outcome.response;
      record := record.(state := resp.state, brokerOrderId := resp.brokerOrderId, filled := resp.filled);
      var accepted := TakeAnswer(a, record, resp);
      return Answered(accepted, r.clientId, resp.state);
    }

    // The records of one intent.
    method RecordsOf(i: string) returns (records: seq<Record>)
      requires i in store.byIntent
      ensures forall r :: r in records <==> Listed(store.View(), {i}, r)
    {
      records := [];
      var ids := store.byIntent[i];
      for k := 0 to |ids|
        invariant forall r :: r in records <==>
                              exists j :: 0 <= j < k && ids[j] in store.byClient && store.byClient[ids[j]] == r
      {
        if ids[k] in store.byClient {
          records := records + [store.byClient[ids[k]]];
        }
      }
    }

    // Every record, intent by intent.
    method ListRecords() returns (records: seq<Record>)
      ensures forall r :: r in records <==> Listed(store.View(), store.byIntent.Keys, r)
    {
      records := [];
      var todo := store.byIntent.Keys;
      while todo != {}
        invariant todo <= store.byIntent.Keys
        invariant forall r :: r in records <==> Listed(store.View(), store.byIntent.Keys - todo, r)
        decreases todo
      {
        var i :| i in todo;
        var more := RecordsOf(i);
        ListedMore(store.View(), store.byIntent.Keys - todo, i);
        assert store.byIntent.Keys - (todo - {i}) == store.byIntent.Keys - todo + {i};
        records := records + more;
        todo := todo - {i};
      }
      assert store.byIntent.Keys - todo == store.byIntent.Keys;
    }

    // reconcile: any finding blocks the gateway and trips the switch.
    method Reconcile() returns (issues: seq<Issue>)
      requires Keyed(store.View())
      modifies this, kill
      ensures issues == [] <==> Agrees(old(View()))
      ensures View() == Reconciled(old(View()))
    {
      var records := ListRecords();
      var views := map r | r in records :: r.clientId := MockBroker.StateAt(broker.View(), r.clientId);
      var reported := MockBroker.ReportedPositions(broker.View());
      issues := ReconcileLiveState(records, views, positions, reported, cash, broker.cash);
      AgreesIff(View(), records, views, issues);
      hide Agrees, Listed, AmongRecords, PositionIssue, MockBroker.StateAt, Apart;
      if issues != [] {
        blocked := Some("reconciliation_failed");
        var _ := kill.Trip("reconciliation_failed", "system");
      }
    }

    // Whether an intent has an unknown record the venue shows as filled or unknown.
    method Unresolved(i: string) returns (found: Option<Recovery>)
      requires i in store.byIntent
      ensures found == None <==> forall c :: !Stuck(View(), i, c)
      ensures found.Some? ==>
                exists c :: Stuck(View(), i, c) && StopsRecovery(found.value, MockBroker.StateAt(broker.View(), c))
    {
      var ids := store.byIntent[i];
      for k := 0 to |ids|
        invariant forall j :: 0 <= j < k ==> !Stuck(View(), i, ids[j])
      {
        if ids[k] in store.byClient && store.byClient[ids[k]].state == UNKNOWN {
          var state := MockBroker.StateAt(broker.View(), ids[k]);
          assert Stuck(View(), i, ids[k]) <==> state == FILLED || state == UNKNOWN;
          if state == FILLED {
            return Some(NeedsManualAdopt);
          }
          if state == UNKNOWN {
            return Some(StillUnknown);
          }
        }
      }
      return None;
    }

    // recover_gateway
    method Recover() returns (result: Recovery)
      requires Keyed(store.View())
      modifies this, kill
      ensures Recovers(old(View()), View(), result)
    {
      if !started {
        return NotStarted;
      }
      var todo := store.byIntent.Keys;
      while todo != {}
        invariant todo <= store.byIntent.Keys
        invariant View() == old(View()) && forall i, c :: i !in todo ==> !Stuck(View(), i, c)
        decreases todo
      {
        var i :| i in todo;
        var found := Unresolved(i);
        if found.Some? {
          return found.value;
        }
        todo := todo - {i};
      }
      NoneStuck(View());
      hide UnknownSeenAs, Agrees;
      var issues := Reconcile();
      if issues != [] {
        return ReconciliationFailed;
      }
      if kill.triggered {
        return SwitchActive;
      }
      return Recovered;
    }
  }
}
