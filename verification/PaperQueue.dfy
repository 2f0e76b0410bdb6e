// On consecutive events of one symbol the paper queue holds only orders for the very next event, remainders of
// partial fills included: paper/session.py.

module PaperQueue {
  import opened Trading
  import opened Ledger
  import opened PaperOrders
  import opened PaperRisk
  import opened PaperSessions
  import opened PaperAttempts
  import opened PaperLifecycle
  import opened PaperMoney
  import opened PaperTiming
  import opened Strategies

  // Every named intent is for the symbol and scheduled at one number.
  ghost predicate AllFor(s: Session, names: seq<nat>, symbol: string, at: int) {
    forall j :: 0 <= j < |names| ==> IsFor(s, names[j], symbol, at)
  }

  predicate IsFor(s: Session, k: nat, symbol: string, at: int) {
    k < |s.intents| && s.intents[k].order.symbol == symbol && s.intents[k].scheduled == Some(at)
  }

  // A due intent that stays open is scheduled for the next number.
  lemma OneRenews(cfg: Config, s: Session, e: Event, k: nat)
    requires ValidConfig(cfg) && Life(cfg, s) && k < |s.intents| && Open(s.intents[k]) && s.halt == None
    ensures var s' := ExecuteOne(cfg, s, e, k);
            && s'.intents[k].order == s.intents[k].order
            && (s'.halt == None && s'.intents[k].status == PartiallyFilled ==>
                  s'.intents[k].scheduled == Some(e.seqNo + 1))
  {
    AttemptAtShape(cfg, s, e, k);
    ExecuteOneShape(cfg, s, e, k);
    hide ExecuteOne, AttemptAt, Life, WellFormed, ValidConfig, VenueOk;
  }

  lemma OthersKept(s: Session, s': Session, names: seq<nat>, k: nat, symbol: string, at: int)
    requires AllFor(s, names, symbol, at) && k !in names && |s'.intents| == |s.intents|
    requires forall i :: 0 <= i < |s.intents| && i != k ==> s'.intents[i] == s.intents[i]
    ensures AllFor(s', names, symbol, at)
  {
    forall j | 0 <= j < |names|
      ensures IsFor(s', names[j], symbol, at)
    {
      assert IsFor(s, names[j], symbol, at) && names[j] in names;
    }
  }

  lemma {:induction false} QueueRenews(cfg: Config, s: Session, e: Event, todo: seq<nat>, still: seq<nat>)
    requires ValidConfig(cfg) && Life(cfg, s) && s.feed.lastSeq == Some(e.seqNo)
    requires Names(s, todo) && Names(s, still) && s.halt == None && QueueOk(s, still + todo)
    requires AllFor(s, todo, e.bar.symbol, e.seqNo) && AllFor(s, still, e.bar.symbol, e.seqNo + 1)
    ensures var r := ExecuteQueue(cfg, s, e, todo, still);
            r.0.halt == None ==> AllFor(r.0, r.1, e.bar.symbol, e.seqNo + 1)
    decreases |todo|
  {
    hide ExecuteOne, ValidConfig, Life, AllFor;
    if todo != [] {
      var k := todo[0];
      HeadOfQueue(s, e, todo, still);
      LifeAfterOne(cfg, s, e, k);
      MovedAfterOne(cfg, s, e, k);
      OneRenews(cfg, s, e, k);
      var s' := ExecuteOne(cfg, s, e, k);
      var still' := if s'.intents[k].status == PartiallyFilled then still + [k] else still;
      if s'.halt == None {
        QueueAfterOne(s, s', todo, still, k);
        OthersKept(s, s', todo[1..], k, e.bar.symbol, e.seqNo);
        OthersKept(s, s', still, k, e.bar.symbol, e.seqNo + 1);
        Extended(s', still, k, e.bar.symbol, e.seqNo + 1);
        QueueRenews(cfg, s', e, todo[1..], still');
      }
    }
  }

  lemma Extended(s: Session, names: seq<nat>, k: nat, symbol: string, at: int)
    requires AllFor(s, names, symbol, at)
    ensures IsFor(s, k, symbol, at) ==> AllFor(s, names + [k], symbol, at)
  {
  }

  // The head is due and named nowhere else.
  lemma HeadOfQueue(s: Session, e: Event, todo: seq<nat>, still: seq<nat>)
    requires todo != [] && QueueOk(s, still + todo) && AllFor(s, todo, e.bar.symbol, e.seqNo)
    ensures var k := todo[0];
            && k < |s.intents| && Open(s.intents[k]) && Due(s.intents[k], e)
            && s.intents[k].order.symbol == e.bar.symbol
            && k !in todo[1..] && k !in still && AllFor(s, todo[1..], e.bar.symbol, e.seqNo)
  {
    var all, n := still + todo, |still|;
    assert all[n] == todo[0] && IsFor(s, todo[0], e.bar.symbol, e.seqNo);
    assert forall j :: 0 <= j < n ==> all[j] == still[j];
    assert forall j :: 1 <= j < |todo| ==> all[n + j] == todo[j];
    forall j | 0 <= j < |todo[1..]|
      ensures todo[1..][j] != todo[0] && IsFor(s, todo[1..][j], e.bar.symbol, e.seqNo)
    {
      assert todo[1..][j] == todo[j + 1] == all[n + j + 1];
      assert IsFor(s, todo[j + 1], e.bar.symbol, e.seqNo);
    }
  }

  // ---- new orders

  lemma {:induction false} SubmitAllFor(cfg: Config, s: Session, e: Event, signal: Signal, orders: seq<Order>)
    requires Names(s, s.pending) && AllFor(s, s.pending, e.bar.symbol, e.seqNo + 1)
    requires forall o :: o in orders ==> o.symbol == e.bar.symbol
    ensures var t := SubmitAll(cfg, s, e, signal, orders); AllFor(t, t.pending, e.bar.symbol, e.seqNo + 1)
    decreases |orders|
  {
    if orders != [] {
      ScreenedWellFormed(cfg, s, e, signal, orders[0]);
      var i := Screened(cfg, s, e, signal, orders[0]);
      var s1 := Submit(cfg, s, e, signal, orders[0]);
      assert orders[0] in orders;
      hide Screened, WellFormed, Charged;
      AppendedFor(s, s1, i, e.bar.symbol, e.seqNo + 1);
      SubmitAllFor(cfg, s1, e, signal, orders[1..]);
    }
  }

  lemma AppendedFor(s: Session, s1: Session, i: Intent, symbol: string, at: int)
    requires AllFor(s, s.pending, symbol, at) && s1.intents == s.intents + [i]
    requires s1.pending == (if i.status == Accepted then s.pending + [|s.intents|] else s.pending)
    requires i.status == Accepted ==> i.order.symbol == symbol && i.scheduled == Some(at)
    ensures AllFor(s1, s1.pending, symbol, at)
  {
    forall j | 0 <= j < |s1.pending|
      ensures IsFor(s1, s1.pending[j], symbol, at)
    {
      if j < |s.pending| {
        assert IsFor(s, s.pending[j], symbol, at);
      }
    }
  }

  // ---- events and runs

  // The queue is for the number after the last one admitted.
  ghost predicate QueueNext(s: Session, symbol: string) {
    s.halt == None ==>
      && (s.pending != [] ==> s.feed.lastSeq.Some?)
      && (s.feed.lastSeq.Some? ==> AllFor(s, s.pending, symbol, s.feed.lastSeq.value + 1))
  }

  lemma AllForFrame(s: Session, t: Session, symbol: string, at: int)
    requires AllFor(s, s.pending, symbol, at) && t.intents == s.intents && t.pending == s.pending
    ensures AllFor(t, t.pending, symbol, at)
  {
    forall j | 0 <= j < |t.pending|
      ensures IsFor(t, t.pending[j], symbol, at)
    {
      assert IsFor(s, s.pending[j], symbol, at);
    }
  }

  // Before an admitted event the queue is for that event.
  lemma AdmittedNext(cfg: Config, s: Session, e: Event)
    requires QueueNext(s, e.bar.symbol) && s.halt == None
    requires s.feed.lastSeq.Some? ==> e.seqNo == s.feed.lastSeq.value + 1
    ensures AllFor(Admit(cfg, s, e), s.pending, e.bar.symbol, e.seqNo)
  {
    AdmitShape(cfg, s, e);
    hide Admit;
    if s.feed.lastSeq.Some? {
      AllForFrame(s, Admit(cfg, s, e), e.bar.symbol, e.seqNo);
    }
  }

  lemma PendingNext(cfg: Config, s: Session, e: Event)
    requires ValidConfig(cfg) && Alive(cfg, s) && s.halt == None && s.feed.lastSeq == Some(e.seqNo)
    requires AllFor(s, s.pending, e.bar.symbol, e.seqNo)
    ensures var t := ExecutePending(cfg, s, e); t.halt == None ==> AllFor(t, t.pending, e.bar.symbol, e.seqNo + 1)
  {
    NoNames(s);
    assert [] + s.pending == s.pending;
    hide Life, QueueOk, ValidConfig;
    QueueRenews(cfg, s, e, s.pending, []);
    var (t, still) := ExecuteQueue(cfg, s, e, s.pending, []);
    hide ExecuteQueue;
    if t.halt == None {
      AllForFrame(t.(pending := still), t.(pending := still), e.bar.symbol, e.seqNo + 1);
    }
  }

  lemma DecideNext(cfg: Config, strategy: Strategy, s: Session, e: Event)
    requires Names(s, s.pending) && AllFor(s, s.pending, e.bar.symbol, e.seqNo + 1) && TradesContextSymbol(strategy)
    requires s.feed.lastSeq == Some(e.seqNo) && s.shown != [] && s.shown[|s.shown| - 1].symbol == e.bar.symbol
    ensures QueueNext(Decide(cfg, strategy, s, e), e.bar.symbol)
  {
    match strategy(s.shown)
    case Raises =>
    case Decision(signal, orders) =>
      assert forall o :: o in orders ==> o.symbol == e.bar.symbol;
      hide *;
      DecidedNext(cfg, strategy, s, e, signal, orders);
  }

  lemma DecidedNext(cfg: Config, strategy: Strategy, s: Session, e: Event, signal: Signal, orders: seq<Order>)
    requires Names(s, s.pending) && AllFor(s, s.pending, e.bar.symbol, e.seqNo + 1)
    requires s.feed.lastSeq == Some(e.seqNo) && strategy(s.shown) == Decision(signal, orders)
    requires forall o :: o in orders ==> o.symbol == e.bar.symbol
    ensures QueueNext(Decide(cfg, strategy, s, e), e.bar.symbol)
  {
    SubmitAllFor(cfg, s, e, signal, orders);
    SubmitAllFrame(cfg, s, e, signal, orders);
    var t := SubmitAll(cfg, s, e, signal, orders);
    hide SubmitAll, Record, AllFor;
    AllForFrame(t, Decide(cfg, strategy, s, e), e.bar.symbol, e.seqNo + 1);
  }

  lemma EventNext(cfg: Config, strategy: Strategy, s: Session, e: Event)
    requires ValidConfig(cfg) && Alive(cfg, s) && QueueNext(s, e.bar.symbol) && TradesContextSymbol(strategy)
    requires Running(s) && s.feed.lastSeq.Some? ==> e.seqNo == s.feed.lastSeq.value + 1
    requires Names(s, s.pending)
    ensures QueueNext(ProcessEvent(cfg, strategy, s, e), e.bar.symbol)
  {
    hide TradesContextSymbol, ValidConfig;
    if Running(s) {
      AdmitShape(cfg, s, e);
      AdmitLife(cfg, s, e);
      AdmittedNext(cfg, s, e);
      var s1 := Admit(cfg, s, e);
      hide Alive, Admit, AllFor;
      if s1.halt == None {
        PendingLife(cfg, s1, e);
        PendingNext(cfg, s1, e);
        var s2 := ExecutePending(cfg, s1, e);
        hide ExecutePending, Progress;
        if s2.halt == None {
          AllForFrame(s2, Observed(s2, e), e.bar.symbol, e.seqNo + 1);
          DecideNext(cfg, strategy, Observed(s2, e), e);
          hide Decide, QueueNext;
        }
      }
    }
  }

  // Ticks of one symbol, numbered one after another from the first on; switch commands anywhere.
  predicate ConsecutiveTicks(cs: seq<Command>, symbol: string, last: Option<int>)
    decreases |cs|
  {
    if cs == [] then true
    else if !cs[0].Tick? then ConsecutiveTicks(cs[1..], symbol, last)
    else
      && cs[0].event.bar.symbol == symbol && (last.Some? ==> cs[0].event.seqNo == last.value + 1)
      && ConsecutiveTicks(cs[1..], symbol, Some(cs[0].event.seqNo))
  }

  lemma ObeyNext(cfg: Config, strategy: Strategy, s: Session, c: Command, symbol: string, last: Option<int>)
    requires ValidConfig(cfg) && Alive(cfg, s) && QueueNext(s, symbol) && TradesContextSymbol(strategy)
    requires Running(s) ==> s.feed.lastSeq == last
    requires c.Tick? ==> c.event.bar.symbol == symbol && (last.Some? ==> c.event.seqNo == last.value + 1)
    requires Names(s, s.pending)
    ensures var t := Obey(cfg, strategy, s, c);
            QueueNext(t, symbol) && (Running(t) ==> t.feed.lastSeq == if c.Tick? then Some(c.event.seqNo) else last)
  {
    hide TradesContextSymbol, ValidConfig;
    if c.Tick? {
      EventNext(cfg, strategy, s, c.event);
      EventSeq(cfg, strategy, s, c.event);
      hide QueueNext, Alive, ProcessEvent;
    } else {
      hide Alive;
      if s.halt == None && s.feed.lastSeq.Some? {
        AllForFrame(s, Obey(cfg, strategy, s, c), symbol, s.feed.lastSeq.value + 1);
      }
    }
  }

  // A session still running has admitted the event.
  lemma EventSeq(cfg: Config, strategy: Strategy, s: Session, e: Event)
    requires ValidConfig(cfg) && Alive(cfg, s) && Names(s, s.pending)
    ensures var t := ProcessEvent(cfg, strategy, s, e); Running(t) ==> t.feed.lastSeq == Some(e.seqNo)
  {
    if Running(s) {
      AdmitShape(cfg, s, e);
      AdmitLife(cfg, s, e);
      var s1 := Admit(cfg, s, e);
      hide Alive, Admit, ValidConfig;
      if s1.halt == None {
        PendingLife(cfg, s1, e);
        var s2 := ExecutePending(cfg, s1, e);
        hide ExecutePending, Progress;
        if s2.halt == None {
          ObservedLife(cfg, s2, e);
          DecideLife(cfg, strategy, Observed(s2, e), e);
          hide Decide, Observed;
        }
      }
    }
  }

  lemma {:induction false} RunNext(cfg: Config, strategy: Strategy, s: Session, cs: seq<Command>, symbol: string,
                                   last: Option<int>)
    requires ValidConfig(cfg) && Alive(cfg, s) && QueueNext(s, symbol) && TradesContextSymbol(strategy)
    requires Running(s) ==> s.feed.lastSeq == last
    requires ConsecutiveTicks(cs, symbol, last) && Names(s, s.pending)
    ensures QueueNext(Run(cfg, strategy, s, cs), symbol)
    decreases |cs|
  {
    hide Alive, QueueNext, TradesContextSymbol, ValidConfig, Running, Obey;
    if cs != [] {
      ObeyNext(cfg, strategy, s, cs[0], symbol, last);
      ObeyLife(cfg, strategy, s, cs[0]);
      hide Progress;
      RunNext(cfg, strategy, Obey(cfg, strategy, s, cs[0]), cs[1..], symbol,
              if cs[0].Tick? then Some(cs[0].event.seqNo) else last);
    }
  }

  // Whatever the fill policy and the switch commands in between: as long as the session has not halted, every queued
  // order is for that symbol and for the number right after the last event.
  lemma {:induction false} QueueHoldsOnlyNext(cfg: Config, strategy: Strategy, cs: seq<Command>, symbol: string)
    requires ValidConfig(cfg) && TradesContextSymbol(strategy) && ConsecutiveTicks(cs, symbol, None)
    ensures var s := Run(cfg, strategy, Opened(cfg), cs);
            s.halt == None ==>
              && (s.pending != [] ==> s.feed.lastSeq.Some?)
              && forall j :: 0 <= j < |s.pending| ==> IsFor(s, s.pending[j], symbol, s.feed.lastSeq.value + 1)
  {
    OpenedAlive(cfg);
    assert QueueNext(Opened(cfg), symbol);
    RunNext(cfg, strategy, Opened(cfg), cs, symbol, None);
    hide Run, Opened, Alive;
  }
}
