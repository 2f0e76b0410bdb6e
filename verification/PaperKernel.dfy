// The paper session as a mutable object, method by method against its description on values: paper/session.py.

module PaperKernel {
  import opened Trading
  import opened Ledger
  import opened PaperOrders
  import opened KillSwitches
  import opened MarketData
  import opened PaperRisk
  import opened PaperExecution
  import opened PaperBooks
  import opened PaperReconciliation
  import opened PaperSessions

  // A session with one more intent.
  ghost function Filed(s: Session, i: Intent, close: real): Session {
    var s1 := s.(intents := s.intents + [i]);
    if i.status == Accepted then
      s1.(usage := Charged(s.usage, i.order.quantity, close), pending := s.pending + [|s.intents|])
    else s1
  }

  lemma SubmitFiles(cfg: Config, s: Session, e: Event, signal: Signal, order: Order)
    requires Names(s, s.pending)
    ensures Submit(cfg, s, e, signal, order) == Filed(s, Screened(cfg, s, e, signal, order), e.bar.close)
  {
    assert Screened(cfg, s, e, signal, order).order.quantity == order.quantity by {
      hide Screen, MarketValue, Equity, Quantity, Blank, Fixed8;
    }
    hide Screened, Charged;
  }

  class PaperSession {
    const cfg: Config
    const strategy: Strategy
    const kill: KillSwitch
    const risk: PaperRiskEngine
    const validator: Validator
    const execution: PaperExecutionAdapter
    const book: PaperPortfolio

    var started: bool
    var stopped: bool
    var halt: Option<Halt>
    var intents: seq<OrderIntent>
    var pending: seq<OrderIntent>
    var fills: seq<Fill>
    var history: map<string, seq<Bar>>
    var shown: seq<Context>
    ghost var notes: seq<Note>
    ghost var queue: seq<nat>  // the positions in intents of the pending objects

    ghost predicate Wired() {
      && risk.kill == kill && risk.cfg == cfg.risk && validator.cfg == cfg.feed && execution.cfg == cfg.exec
    }

    ghost predicate Valid()
      reads this
    {
      && Wired()
      && (forall i, j :: 0 <= i < j < |intents| ==> intents[i] != intents[j])
      && |queue| == |pending|
      && (forall j :: 0 <= j < |pending| ==> queue[j] < |intents| && pending[j] == intents[queue[j]])
    }

    ghost function Views(): (vs: seq<Intent>)
      reads this, intents
      ensures |vs| == |intents|
      ensures forall i :: 0 <= i < |intents| ==> vs[i] == intents[i].View()
    {
      seq(|intents|, i requires 0 <= i < |intents| reads this, intents => intents[i].View())
    }

    ghost function View(): Session
      reads this, kill, risk, validator, execution, book, book.portfolio, intents
    {
      Session(started, stopped, halt, kill.View(), risk.View(), validator.View(), execution.View(), book.View(),
              Views(), fills, notes, history, queue, shown)
    }

    constructor (cfg: Config, strategy: Strategy)
      ensures this.cfg == cfg && this.strategy == strategy
      ensures Valid() && View() == New(cfg)
      ensures fresh(kill) && fresh(risk) && fresh(validator) && fresh(execution) && fresh(book) && fresh(book.portfolio)
    {
      this.cfg, this.strategy := cfg, strategy;
      var k := new KillSwitch();
      kill := k;
      risk := new PaperRiskEngine(cfg.risk, k);
      validator := new Validator(cfg.feed);
      execution := new PaperExecutionAdapter(cfg.exec);
      book := new PaperPortfolio(cfg.initialCash);
      started, stopped, halt := false, false, None;
      intents, pending, fills, history, shown := [], [], [], map[], [];
      notes, queue := [], [];
    }

    method Start() returns (ok: bool)
      requires Valid()
      modifies this, risk
      ensures Valid() && ok == !old(started) && View() == StartSession(old(View()))
      ensures intents == old(intents)
    {
      if started {
        return false;
      }
      started := true;
      var value := book.portfolio.TotalMarketValue();
      risk.SetDayStart(book.portfolio.cash + value);
      return true;
    }

    method ActivateKillSwitch(reason: string, actor: string) returns (ok: bool)
      requires Valid()
      modifies kill
      ensures Valid() && View() == old(View()).(kill := Activate(old(View()).kill, reason, actor))
    {
      ok := kill.Trip(reason, actor);
    }

    method ResetKillSwitch(reason: string, actor: string) returns (ok: bool)
      requires Valid()
      modifies kill
      ensures Valid() && View() == old(View()).(kill := Reset(old(View()).kill, reason, actor))
    {
      ok := kill.Rearm(reason, actor);
    }

    // One due intent at the open.
    method ExecuteDue(e: Event, intent: OrderIntent, ghost k: nat)
      requires Valid() && k < |intents| && intents[k] == intent
      modifies this`halt, this`fills, this`notes, execution, book, book.portfolio, intent
      ensures Valid() && View() == ExecuteOne(cfg, old(View()), e, k)
    {
      hide AttemptAt, Applied, CannotApply, Wired, Views;
      var outcome := Attempt(e, intent, k);
      match outcome {
        case Dropped(_) =>
        case Threw(fault) =>
          halt := Some(Exception(fault));
        case FilledWith(f) =>
          BookFill(e, intent, k, f);
      }
    }

    // The fill goes to the session's list, then to the ledgers; a remainder is rescheduled.
    method BookFill(e: Event, intent: OrderIntent, ghost k: nat, f: Fill)
      requires Valid() && k < |intents| && intents[k] == intent && f.quantity > 0.0
      modifies this`halt, this`fills, this`notes, book, book.portfolio, intent
      ensures Valid()
      ensures var s := old(View());
              var s' := s.(fills := s.fills + [f], notes := s.notes + [Note(k, e.seqNo)], book := Applied(s.book, f));
              View() == if CannotApply(s.book, f) then s'.(halt := Some(LedgerRefused))
                        else s'.(intents := s.intents[k := Reschedule(s.intents[k], e)])
    {
      hide Applied, CannotApply, Wired, Views, Reschedule;
      ghost var s := View();
      fills := fills + [f];
      notes := notes + [Note(k, e.seqNo)];
      var ok := book.ApplyFill(f);
      assert Views() == s.intents;
      if !ok {
        halt := Some(LedgerRefused);
      } else {
        RescheduleRemainder(e, intent, k);
      }
    }

    method RescheduleRemainder(e: Event, intent: OrderIntent, ghost k: nat)
      requires Valid() && k < |intents| && intents[k] == intent
      modifies intent
      ensures Valid() && View() == old(View()).(intents := old(View()).intents[k := Reschedule(old(intent.View()), e)])
    {
      hide Wired, Views;
      ghost var vs := Views();
      if intent.status == PartiallyFilled {
        intent.scheduled := Some(e.seqNo + 1);
      }
      assert Views() == vs[k := intent.View()];
    }

    method Attempt(e: Event, intent: OrderIntent, ghost k: nat) returns (outcome: Outcome)
      requires Valid() && k < |intents| && intents[k] == intent
      modifies execution, intent
      ensures Valid() && outcome == AttemptAt(cfg, old(View()), e, k).outcome
      ensures var a := AttemptAt(cfg, old(View()), e, k);
              View() == old(View()).(venue := a.venue, intents := old(View()).intents[k := a.intent])
      ensures outcome.FilledWith? ==> ValidFill(outcome.fill)
    {
      hide ExecuteAtOpen, Quantity, Views;
      ghost var s := View();
      var closed := cfg.feed.calendar.Some? && SessionDate(e) !in cfg.feed.calendar.value;
      var cash := book.portfolio.cash;
      var position := Quantity(book.portfolio.View(), e.bar.symbol);
      outcome := execution.Execute(intent, e.bar.timestamp, e.bar.open, cash, position, closed, false);
      ghost var a := AttemptAt(cfg, s, e, k);
      assert PaperExecution.Attempt(execution.View(), intent.View(), outcome) == a;
      assert Views() == s.intents[k := a.intent];
    }

    // One entry of the queue; keep says whether it stays pending.
    method Visit(e: Event, intent: OrderIntent, ghost k: nat) returns (keep: bool)
      requires Valid() && k < |intents| && intents[k] == intent && halt == None
      modifies this`halt, this`fills, this`notes, execution, book, book.portfolio, intent
      ensures Valid()
      ensures var s := old(View());
              if Due(s.intents[k], e) then
                View() == ExecuteOne(cfg, s, e, k) && keep == (View().intents[k].status == PartiallyFilled)
              else View() == s && keep
    {
      hide ExecuteOne, Wired, Due, Views;
      if !Due(intent.View(), e) {
        return true;
      }
      ExecuteDue(e, intent, k);
      return intent.status == PartiallyFilled;
    }

    // The walk over the queue; still is what stays pending, left names it.
    method WalkQueue(e: Event) returns (still: seq<OrderIntent>, ghost left: seq<nat>)
      requires Valid() && halt == None
      modifies this`halt, this`fills, this`notes, execution, book, book.portfolio, intents
      ensures Valid()
      ensures View() == ExecuteQueue(cfg, old(View()), e, queue, []).0
      ensures halt == None ==>
                && left == ExecuteQueue(cfg, old(View()), e, queue, []).1
                && |still| == |left|
                && forall i :: 0 <= i < |left| ==> left[i] < |intents| && still[i] == intents[left[i]]
    {
      still, left := [], [];
      ghost var s := View();
      hide ExecuteQueue, ExecuteOne, Wired, Due, Views;
      for j := 0 to |pending|
        invariant Valid() && halt == None
        invariant |still| == |left|
        invariant forall i :: 0 <= i < |left| ==> left[i] < |intents| && still[i] == intents[left[i]]
        invariant ExecuteQueue(cfg, s, e, queue, []) == ExecuteQueue(cfg, View(), e, queue[j..], left)
      {
        ghost var k := queue[j];
        QueueHead(View(), e, queue, j, left);
        var keep := Visit(e, pending[j], k);
        if halt.Some? {
          return;
        }
        if keep {
          still, left := still + [pending[j]], left + [k];
        }
      }
      QueueDone(View(), e, left);
      assert queue[|pending|..] == [];
    }

    // The orders due at an event's open.
    method ExecutePendingOrders(e: Event)
      requires Valid() && halt == None
      modifies this`halt, this`fills, this`notes, this`pending, this`queue, execution, book, book.portfolio, intents
      ensures Valid() && View() == ExecutePending(cfg, old(View()), e)
    {
      hide ExecuteQueue, Wired, Views;
      var still, left := WalkQueue(e);
      if halt == None {
        pending, queue := still, left;
      }
    }

    lemma QueueDone(s: Session, e: Event, left: seq<nat>)
      requires Names(s, left)
      ensures ExecuteQueue(cfg, s, e, [], left) == (s, left)
    {
    }

    lemma QueueHead(s: Session, e: Event, names: seq<nat>, j: nat, left: seq<nat>)
      requires j < |names| && Names(s, names) && Names(s, left) && s.halt == None
      ensures Names(s, names[j..]) && Names(s, left + [names[j]])
      ensures var k := names[j];
              ExecuteQueue(cfg, s, e, names[j..], left) ==
              if !Due(s.intents[k], e) then ExecuteQueue(cfg, s, e, names[j + 1..], left + [k])
              else
                var s' := ExecuteOne(cfg, s, e, k);
                ExecuteQueue(cfg, s', e, names[j + 1..],
                             if s'.intents[k].status == PartiallyFilled then left + [k] else left)
      ensures var k := names[j];
              var s' := ExecuteOne(cfg, s, e, k);
              s'.halt.Some? && Due(s.intents[k], e) ==> ExecuteQueue(cfg, s, e, names[j..], left).0 == s'
    {
      hide ExecuteOne, Due;
      assert names[j..][0] == names[j] && names[j..][1..] == names[j + 1..];
    }

    // Mark the book at the close and extend what the strategy has been shown.
    method ObserveClose(e: Event)
      requires Valid()
      modifies this`history, this`shown, book.portfolio
      ensures Valid() && View() == Observed(old(View()), e)
    {
      hide Quantity, Wired, Views;
      var sym := e.bar.symbol;
      var bars := (if sym in history then history[sym] else []) + [e.bar];
      history := history[sym := bars];
      book.portfolio.UpdateMark(sym, e.bar.close);
      var context := Context(e.bar.timestamp, sym, bars, Quantity(book.portfolio.View(), sym), book.portfolio.cash,
                             Some("TRUE"));
      shown := shown + [context];
      assert Views() == old(Views());
    }

    // Validate, screen, and accept or reject a new intent.
    method ScreenIntent(e: Event, intent: OrderIntent, ghost signal: Signal, ghost order: Order)
      requires Valid() && intent !in intents
      requires intent.View() == MakeIntent(cfg.exec.session, order, signal, e.seqNo)
      modifies intent
      ensures Valid() && View() == old(View())
      ensures intent.View() == Screened(cfg, old(View()), e, signal, order)
    {
      hide Quantity, MarketValue, Blank, Fixed8, Views, Screen;
      ghost var made := intent.View();
      var reason := StructuralReason(intent.order);
      if reason.Some? {
        var _ := intent.MoveTo(Rejected, reason);
      } else {
        var _ := intent.MoveTo(Validated, None);
        var value := book.portfolio.TotalMarketValue();
        var position := Quantity(book.portfolio.View(), e.bar.symbol);
        var refusal := risk.CheckIntent(intent, e.bar.close, position, value, book.portfolio.cash + value);
        if refusal == None {
          var _ := intent.MoveTo(Accepted, None);
          intent.scheduled := Some(e.seqNo + 1);
        }
      }
      assert Views() == old(Views());
    }

    method SubmitOrder(e: Event, signal: Signal, order: Order)
      requires Valid()
      modifies this`intents, this`pending, this`queue, risk
      ensures Valid() && View() == Submit(cfg, old(View()), e, signal, order)
      ensures |intents| == |old(intents)| + 1 && intents[..|old(intents)|] == old(intents)
      ensures fresh(intents[|old(intents)|])
    {
      hide Wired, Views, View, Valid, Screened, Filed;
      SessionNames();
      SubmitFiles(cfg, View(), e, signal, order);
      hide Submit;
      var intent := new OrderIntent(cfg.exec.session, order, signal, e.seqNo);
      ScreenIntent(e, intent, signal, order);
      FileIntent(intent, e.bar.close);
    }

    // The intent joins the session's list, and if accepted its charge and its place in the queue are taken.
    method FileIntent(intent: OrderIntent, close: real)
      requires Valid() && intent !in intents
      modifies this`intents, this`pending, this`queue, risk
      ensures Valid() && View() == Filed(old(View()), intent.View(), close) && intents == old(intents) + [intent]
    {
      hide Wired, Views, Charged;
      ghost var s := View();
      intents := intents + [intent];
      if intent.status == Accepted {
        risk.RecordAccepted(intent, close);
        pending := pending + [intent];
        queue := queue + [|intents| - 1];
      }
      assert Views() == s.intents + [intent.View()];
    }

    // Everything the strategy answers with, in order.
    method SubmitOrders(e: Event, signal: Signal, orders: seq<Order>)
      requires Valid()
      modifies this`intents, this`pending, this`queue, risk
      ensures Valid() && View() == SubmitAll(cfg, old(View()), e, signal, orders)
      ensures forall o :: o in intents ==> o in old(intents) || fresh(o)
    {
      hide Submit, Wired, View, Views, Valid;
      ghost var s := View();
      SessionNames();
      for j := 0 to |orders|
        invariant Valid() && Names(View(), View().pending)
        invariant forall o :: o in intents ==> o in old(intents) || fresh(o)
        invariant SubmitAll(cfg, s, e, signal, orders) == SubmitAll(cfg, View(), e, signal, orders[j..])
      {
        assert orders[j..][0] == orders[j] && orders[j..][1..] == orders[j + 1..];
        ghost var before := intents;
        SubmitOrder(e, signal, orders[j]);
        assert intents == before + [intents[|before|]];
      }
    }

    lemma SessionNames()
      requires Valid()
      ensures Names(View(), View().pending)
    {
      hide Views;
    }

    // The decision at the close, then the equity point.
    method DecideAtClose(e: Event)
      requires Valid()
      modifies this`halt, this`intents, this`pending, this`queue, risk, book.portfolio
      ensures Valid() && Names(old(View()), old(View()).pending)
      ensures View() == Decide(cfg, strategy, old(View()), e)
      ensures forall o :: o in intents ==> o in old(intents) || fresh(o)
    {
      hide SubmitAll, Record, Wired, Views;
      SessionNames();
      var decision := strategy(shown);
      if decision.Raises? {
        halt := Some(Exception(StrategyFailed));
        assert Views() == old(Views());
        return;
      }
      SubmitOrders(e, decision.signal, decision.orders);
      ghost var vs := Views();
      book.portfolio.RecordEquity(e.bar.timestamp);
      assert Views() == vs;
    }

    // process_event; raised is true when the original raises because the session is not running.
    method ProcessEvent(e: Event) returns (raised: bool)
      requires Valid()
      modifies this`halt, this`fills, this`notes, this`pending, this`queue, this`intents, this`history, this`shown,
               validator, risk, execution, book, book.portfolio, intents
      ensures Valid() && Names(old(View()), old(View()).pending)
      ensures View() == PaperSessions.ProcessEvent(cfg, strategy, old(View()), e)
      ensures raised == (!old(started) || old(stopped))
      ensures forall o :: o in intents ==> o in old(intents) || fresh(o)
    {
      SessionNames();
      hide ExecutePending, Decide, Observed, Admit, Wired, View, Views, Valid;
      Flags();
      if !started || stopped {
        return true;
      }
      raised := false;
      if halt.Some? {
        return;
      }
      AdmitEvent(e);
      Flags();
      if halt.Some? {
        return;
      }
      HandleAdmitted(e);
    }

    // The rest of an admitted event.
    method HandleAdmitted(e: Event)
      requires Valid() && halt == None
      modifies this`halt, this`fills, this`notes, this`pending, this`queue, this`intents, this`history, this`shown,
               risk, execution, book, book.portfolio, intents
      ensures Valid() && Names(old(View()), old(View()).pending)
      ensures var s2 := ExecutePending(cfg, old(View()), e);
              View() == if s2.halt.Some? then s2 else Decide(cfg, strategy, Observed(s2, e), e)
      ensures forall o :: o in intents ==> o in old(intents) || fresh(o)
    {
      hide *;
      SessionNames();
      Flags();
      ExecutePendingOrders(e);
      Flags();
      if halt.Some? {
        return;
      }
      ObserveClose(e);
      DecideAtClose(e);
    }

    lemma Flags()
      ensures View().halt == halt && View().started == started && View().stopped == stopped
    {
    }

    method AdmitEvent(e: Event)
      requires Valid()
      modifies this`halt, validator
      ensures Valid() && View() == Admit(cfg, old(View()), e)
    {
      hide Issues, Views;
      var issues := validator.Validate(e);
      if issues != [] {
        halt := Some(InvalidData(issues[0]));
      }
      assert Views() == old(Views());
    }

    // The closing reconciliation; issues are reported exactly when they hold, and any issue halts the session.
    method Stop() returns (ok: bool, issues: seq<Code>)
      requires Valid()
      modifies this`halt, this`stopped
      ensures Valid() && ok == old(started)
      ensures !ok ==> View() == old(View())
      ensures ok ==>
                && (forall c :: c in issues <==>
                      Finding(c, old(View()).book, fills, cfg.initialCash, cfg.allowNegativeCash, None, None))
                && View() == old(View()).(stopped := true,
                                          halt := if issues == [] then old(halt) else Some(ReconciliationFailed))
    {
      hide Finding, Views;
      if !started {
        return false, [];
      }
      ok := true;
      issues := Reconcile(book, fills, cfg.initialCash, cfg.allowNegativeCash, None, None);
      if issues != [] {
        halt := Some(ReconciliationFailed);
      }
      stopped := true;
      assert Views() == old(Views());
    }
  }
}
