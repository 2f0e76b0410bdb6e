// When fills happen: the freeze after the kill switch, orders that miss their event, and the session's order-count and
// turnover caps.

module PaperTiming {
  import opened Trading
  import opened Ledger
  import opened PaperOrders
  import opened KillSwitches
  import opened PaperRisk
  import opened PaperExecution
  import opened PaperBooks
  import opened PaperSessions
  import opened PaperAttempts
  import opened WholeFills
  import opened PaperLifecycle
  import opened PaperMoney

  // ---- what the queue walk may touch

  ghost predicate Within(names: seq<nat>, bound: seq<nat>) {
    forall k :: k in names ==> k in bound
  }

  // New notes belong to intents in who, at event seqNo; the queue left over comes from who as well.
  ghost predicate WalkedBy(s: Session, t: Session, who: seq<nat>, seqNo: int) {
    && |s.notes| <= |t.notes| && t.notes[..|s.notes|] == s.notes
    && (forall j :: |s.notes| <= j < |t.notes| ==> t.notes[j].intent in who && t.notes[j].eventSeq == seqNo)
    && |t.intents| == |s.intents| && t.kill == s.kill && t.usage == s.usage && t.feed == s.feed
    && t.pending == s.pending && t.started == s.started && t.stopped == s.stopped
  }

  lemma WalkedOne(cfg: Config, s: Session, e: Event, k: nat)
    requires k < |s.intents| && s.halt == None
    ensures WalkedBy(s, ExecuteOne(cfg, s, e, k), [k], e.seqNo)
  {
    hide AttemptAt, Applied, CannotApply;
  }

  lemma {:induction false} WalkedQueue(cfg: Config, s: Session, e: Event, todo: seq<nat>, still: seq<nat>,
                                       who: seq<nat>)
    requires Names(s, todo) && Names(s, still) && s.halt == None
    requires Within(todo, who) && Within(still, who)
    ensures WalkedBy(s, ExecuteQueue(cfg, s, e, todo, still).0, who, e.seqNo)
    ensures Within(ExecuteQueue(cfg, s, e, todo, still).1, who)
    decreases |todo|
  {
    hide ExecuteOne, Due;
    if todo != [] {
      var k := todo[0];
      assert k in todo;
      assert forall n :: n in todo[1..] ==> n in todo;
      if !Due(s.intents[k], e) {
        WalkedQueue(cfg, s, e, todo[1..], still + [k], who);
      } else {
        WalkedOne(cfg, s, e, k);
        var s' := ExecuteOne(cfg, s, e, k);
        var still' := if s'.intents[k].status == PartiallyFilled then still + [k] else still;
        if s'.halt == None {
          WalkedQueue(cfg, s', e, todo[1..], still', who);
        }
      }
    }
  }

  // ---- the freeze

  // Since s, nothing new was accepted: later intents are all rejected, the queue only shrank, and every later fill
  // belongs to an intent that was already queued, at a later event.
  ghost predicate Frozen(s: Session, t: Session) {
    && t.kill.triggered
    && |s.intents| <= |t.intents| && (forall i :: |s.intents| <= i < |t.intents| ==> t.intents[i].status == Rejected)
    && Within(t.pending, s.pending)
    && |s.notes| <= |t.notes| && t.notes[..|s.notes|] == s.notes
    && (forall j :: |s.notes| <= j < |t.notes| ==>
          t.notes[j].intent in s.pending
          && (s.feed.lastSeq.Some? ==> t.notes[j].eventSeq > s.feed.lastSeq.value))
    && (s.feed.lastSeq.Some? ==> t.feed.lastSeq.Some? && t.feed.lastSeq.value >= s.feed.lastSeq.value)
  }

  lemma {:induction false} SubmitFrozen(cfg: Config, s: Session, e: Event, signal: Signal, orders: seq<Order>)
    requires Names(s, s.pending) && s.kill.triggered
    ensures var t := SubmitAll(cfg, s, e, signal, orders);
            && t.pending == s.pending && t.usage == s.usage
            && forall i :: |s.intents| <= i < |t.intents| ==> t.intents[i].status == Rejected
    decreases |orders|
  {
    if orders != [] {
      ScreenedWellFormed(cfg, s, e, signal, orders[0]);
      hide Screened, WellFormed;
      var s1 := Submit(cfg, s, e, signal, orders[0]);
      SubmitFrozen(cfg, s1, e, signal, orders[1..]);
      SubmitAllFrame(cfg, s1, e, signal, orders[1..]);
    }
  }

  // An admitted event whose queue walk is over: t before, t2 after.
  lemma FrozenAfterWalk(s: Session, t: Session, t2: Session, seqNo: int)
    requires Frozen(s, t) && Progress(t, t2)
    requires t.feed.lastSeq.Some? ==> seqNo > t.feed.lastSeq.value
    requires t2.feed.lastSeq == Some(seqNo)
    requires |t.notes| <= |t2.notes| && t2.notes[..|t.notes|] == t.notes
    requires forall j :: |t.notes| <= j < |t2.notes| ==>
               t2.notes[j].intent in t.pending && t2.notes[j].eventSeq == seqNo
    requires |t2.intents| == |t.intents| && t2.kill == t.kill && Within(t2.pending, t.pending)
    ensures Frozen(s, t2)
  {
    assert t2.notes[..|s.notes|] == t.notes[..|s.notes|];
    forall j | |s.notes| <= j < |t2.notes|
      ensures t2.notes[j].intent in s.pending
      ensures s.feed.lastSeq.Some? ==> t2.notes[j].eventSeq > s.feed.lastSeq.value
    {
      if j < |t.notes| {
        assert t2.notes[j] == t.notes[j];
      }
    }
  }

  lemma FrozenAfterDecide(s: Session, t: Session, u: Session)
    requires Frozen(s, t)
    requires u.pending == t.pending && u.kill == t.kill && u.notes == t.notes && u.feed == t.feed
    requires |t.intents| <= |u.intents| && u.intents[..|t.intents|] == t.intents
    requires forall i :: |t.intents| <= i < |u.intents| ==> u.intents[i].status == Rejected
    ensures Frozen(s, u)
  {
    assert forall i :: 0 <= i < |t.intents| ==> u.intents[i] == u.intents[..|t.intents|][i];
  }

  lemma AdmitShape(cfg: Config, s: Session, e: Event)
    ensures var t := Admit(cfg, s, e);
            && t == s.(feed := t.feed, halt := t.halt)
            && (s.halt == None && t.halt == None ==>
                  t.feed.lastSeq == Some(e.seqNo) && (s.feed.lastSeq.Some? ==> e.seqNo > s.feed.lastSeq.value))
            && (s.halt == None && t.halt.Some? ==> t.feed == s.feed && t.halt.value.InvalidData?)
  {
  }

  lemma PendingWalked(cfg: Config, s: Session, e: Event)
    requires Names(s, s.pending) && s.halt == None
    ensures var t := ExecutePending(cfg, s, e);
            WalkedBy(s, t.(pending := s.pending), s.pending, e.seqNo) && Within(t.pending, s.pending)
  {
    NoNames(s);
    WalkedQueue(cfg, s, e, s.pending, [], s.pending);
    hide ExecuteQueue;
  }

  lemma EventFrozen(cfg: Config, strategy: Strategy, s: Session, t: Session, e: Event)
    requires ValidConfig(cfg) && Alive(cfg, t) && Frozen(s, t)
    ensures Frozen(s, ProcessEvent(cfg, strategy, t, e))
  {
    AliveNames(cfg, t);
    if Running(t) {
      AdmitShape(cfg, t, e);
      AdmitLife(cfg, t, e);
      var t1 := Admit(cfg, t, e);
      if t1.halt == None {
        PendingWalked(cfg, t1, e);
        PendingLife(cfg, t1, e);
        AliveStatuses(cfg, t);
        var t2 := ExecutePending(cfg, t1, e);
        ProgressTransitive(t, t1, t2);
        hide Alive, Admit, ExecutePending, Progress, ValidConfig, Frozen;
        FrozenAfterWalk(s, t, t2, e.seqNo);
        if t2.halt == None {
          var t3 := Observed(t2, e);
          FrozenTriggered(s, t2);
          FrozenAfterDecide(s, t2, t3);
          DecideFrozen(cfg, strategy, t3, e);
          hide Observed, Decide;
          FrozenAfterDecide(s, t3, Decide(cfg, strategy, t3, e));
        }
      }
    }
  }

  lemma FrozenTriggered(s: Session, t: Session)
    requires Frozen(s, t)
    ensures t.kill.triggered
  {
  }

  lemma DecideFrozen(cfg: Config, strategy: Strategy, s: Session, e: Event)
    requires Names(s, s.pending) && s.kill.triggered
    ensures var t := Decide(cfg, strategy, s, e);
            && t.pending == s.pending && t.kill == s.kill && t.notes == s.notes && t.feed == s.feed
            && |s.intents| <= |t.intents| && t.intents[..|s.intents|] == s.intents
            && forall i :: |s.intents| <= i < |t.intents| ==> t.intents[i].status == Rejected
  {
    match strategy(s.shown)
    case Raises =>
    case Decision(signal, orders) =>
      SubmitFrozen(cfg, s, e, signal, orders);
      SubmitAllFrame(cfg, s, e, signal, orders);
      hide SubmitAll, Record;
  }

  predicate NoReset(cs: seq<Command>) {
    forall c :: c in cs ==> !c.ResetSwitch?
  }

  lemma {:induction false} RunFrozen(cfg: Config, strategy: Strategy, s: Session, t: Session, cs: seq<Command>)
    requires ValidConfig(cfg) && Alive(cfg, t) && Frozen(s, t) && NoReset(cs)
    ensures Frozen(s, Run(cfg, strategy, t, cs))
    decreases |cs|
  {
    AliveNames(cfg, t);
    hide Alive, ValidConfig;
    if cs != [] {
      ObeyLife(cfg, strategy, t, cs[0]);
      var u := Obey(cfg, strategy, t, cs[0]);
      assert cs[0] in cs;
      if cs[0].Tick? {
        EventFrozen(cfg, strategy, s, t, cs[0].event);
      }
      hide ProcessEvent;
      assert Frozen(s, u);
      RunFrozen(cfg, strategy, s, u, cs[1..]);
    }
  }

  // Since s every new order was rejected, and every later fill, one for each later note, belongs to an order that was
  // queued and happened at the one event that directly follows.
  ghost predicate OnlyNextFills(s: Session, t: Session) {
    && |t.notes| == |t.fills| && |s.notes| == |s.fills| <= |t.fills|
    && (forall i :: |s.intents| <= i < |t.intents| ==> t.intents[i].status == Rejected)
    && (forall j :: |s.notes| <= j < |t.notes| ==>
          t.notes[j].intent in s.pending && s.feed.lastSeq == Some(t.notes[j].eventSeq - 1))
  }

  // Once the kill switch is triggered and not reset, only orders already queued can fill, every later order is
  // rejected, and in a session that fills orders whole every later fill happens at the one event that directly follows.
  lemma {:induction false} KillSwitchFreezes(cfg: Config, strategy: Strategy, before: seq<Command>, after: seq<Command>)
    requires ValidConfig(cfg) && FillsWhole(cfg) && NoReset(after)
    requires Run(cfg, strategy, Opened(cfg), before).kill.triggered
    ensures var s := Run(cfg, strategy, Opened(cfg), before);
            OnlyNextFills(s, Run(cfg, strategy, s, after))
  {
    var whole := AtOnce(cfg);
    assert ValidConfig(whole) && whole.exec.policy == AllOrNothing;
    hide *;
    OpenedAlive(cfg);
    OpenedAlive(whole);
    AliveNames(cfg, Opened(cfg));
    SameRun(cfg, strategy, Opened(cfg), before);
    var s := Run(cfg, strategy, Opened(cfg), before);
    RunLife(whole, strategy, Opened(whole), before);
    AliveNames(whole, s);
    FreezesWhole(cfg, strategy, s, after);
  }

  // With either fill policy: after the trip nothing new is accepted, and only orders queued at the trip ever fill.
  lemma {:induction false} OnlyQueuedOrdersFill(cfg: Config, strategy: Strategy, before: seq<Command>,
                                                after: seq<Command>)
    requires ValidConfig(cfg) && NoReset(after)
    requires Run(cfg, strategy, Opened(cfg), before).kill.triggered
    ensures var s := Run(cfg, strategy, Opened(cfg), before);
            var t := Run(cfg, strategy, s, after);
            && |s.notes| <= |t.notes| && t.notes[..|s.notes|] == s.notes
            && (forall i :: |s.intents| <= i < |t.intents| ==> t.intents[i].status == Rejected)
            && forall j :: |s.notes| <= j < |t.notes| ==> t.notes[j].intent in s.pending
  {
    OpenedAlive(cfg);
    hide Opened, Run, Alive, Progress, ValidConfig, NoReset;
    RunLife(cfg, strategy, Opened(cfg), before);
    var s := Run(cfg, strategy, Opened(cfg), before);
    FrozenRefl(s);
    RunFrozen(cfg, strategy, s, s, after);
  }

  lemma FreezesFrom(cfg: Config, strategy: Strategy, s: Session, after: seq<Command>)
    requires ValidConfig(cfg) && cfg.exec.policy == AllOrNothing && NoReset(after) && Alive(cfg, s) && s.kill.triggered
    requires Names(s, s.pending)
    ensures OnlyNextFills(s, Run(cfg, strategy, s, after))
  {
    hide Run, Alive, Frozen, Progress, ValidConfig, NoReset;
    FrozenRefl(s);
    RunFrozen(cfg, strategy, s, s, after);
    RunLife(cfg, strategy, s, after);
    FrozenSummary(cfg, s, Run(cfg, strategy, s, after));
  }

  lemma FreezesWhole(cfg: Config, strategy: Strategy, s: Session, after: seq<Command>)
    requires ValidConfig(AtOnce(cfg)) && FillsWhole(cfg) && NoReset(after) && Alive(AtOnce(cfg), s) && s.kill.triggered
    requires Names(s, s.pending)
    ensures OnlyNextFills(s, Run(cfg, strategy, s, after))
  {
    assert AtOnce(cfg).exec.policy == AllOrNothing;
    hide *;
    SameRun(cfg, strategy, s, after);
    FreezesFrom(AtOnce(cfg), strategy, s, after);
  }

  lemma FrozenSummary(cfg: Config, s: Session, t: Session)
    requires cfg.exec.policy == AllOrNothing && Alive(cfg, s) && Alive(cfg, t) && Frozen(s, t) && Progress(s, t)
    ensures |t.notes| == |t.fills| && |s.notes| == |s.fills| <= |t.fills|
    ensures forall i :: |s.intents| <= i < |t.intents| ==> t.intents[i].status == Rejected
    ensures forall j :: |s.notes| <= j < |t.notes| ==>
              t.notes[j].intent in s.pending && s.feed.lastSeq == Some(t.notes[j].eventSeq - 1)
  {
    FrozenTiming(cfg, s, t);
    hide VenueOk, SumsOk, IntentsOk, OnceOk, QueueOk, Progress;
  }

  // Only the event right after s can have filled anything since.
  lemma FrozenTiming(cfg: Config, s: Session, t: Session)
    requires cfg.exec.policy == AllOrNothing && Alive(cfg, s) && Alive(cfg, t)
    requires Frozen(s, t) && Progress(s, t)
    ensures forall j :: |s.notes| <= j < |t.notes| ==>
              t.notes[j].intent in s.pending && s.feed.lastSeq == Some(t.notes[j].eventSeq - 1)
  {
    hide VenueOk, SumsOk;
    forall j | |s.notes| <= j < |t.notes|
      ensures t.notes[j].intent in s.pending
      ensures s.feed.lastSeq == Some(t.notes[j].eventSeq - 1)
    {
      var i := t.notes[j].intent;
      assert i < |s.intents|;
      IntentWellFormed(cfg, s, i);
      IntentWellFormed(cfg, t, i);
      assert t.intents[i].scheduled == Some(t.notes[j].eventSeq);
    }
  }

  lemma FrozenRefl(s: Session)
    requires s.kill.triggered
    ensures Frozen(s, s)
  {
  }

  // ---- orders that miss their event

  // Intent i is as it was, and no fill since s is its own.
  ghost predicate LeftAlone(s: Session, t: Session, i: nat) {
    && i < |s.intents| <= |t.intents| && t.intents[i] == s.intents[i]
    && |s.notes| <= |t.notes| && t.notes[..|s.notes|] == s.notes
    && (forall j :: |s.notes| <= j < |t.notes| ==> t.notes[j].intent != i)
    && (s.feed.lastSeq.Some? ==> t.feed.lastSeq.Some? && t.feed.lastSeq.value >= s.feed.lastSeq.value)
  }

  lemma LeftAloneTransitive(s: Session, t: Session, u: Session, i: nat)
    requires LeftAlone(s, t, i) && LeftAlone(t, u, i)
    ensures LeftAlone(s, u, i)
  {
    assert u.notes[..|s.notes|] == t.notes[..|s.notes|];
    forall j | |s.notes| <= j < |u.notes|
      ensures u.notes[j].intent != i
    {
      if j < |t.notes| {
        assert u.notes[j] == t.notes[j];
      }
    }
  }

  lemma OneLeavesAlone(cfg: Config, s: Session, e: Event, k: nat, i: nat)
    requires k < |s.intents| && i < |s.intents| && i != k && s.halt == None
    ensures LeftAlone(s, ExecuteOne(cfg, s, e, k), i)
  {
    ExecuteOneShape(cfg, s, e, k);
    hide ExecuteOne, AttemptAt, Applied, CannotApply;
  }

  // The walk over the queue touches no intent that is not due.
  lemma {:induction false} QueueSkips(cfg: Config, s: Session, e: Event, todo: seq<nat>, still: seq<nat>, i: nat)
    requires Names(s, todo) && Names(s, still) && i < |s.intents| && !Due(s.intents[i], e)
    ensures LeftAlone(s, ExecuteQueue(cfg, s, e, todo, still).0, i)
    decreases |todo|
  {
    hide ExecuteOne, Due;
    if todo != [] && s.halt == None {
      var k := todo[0];
      if !Due(s.intents[k], e) {
        QueueSkips(cfg, s, e, todo[1..], still + [k], i);
      } else {
        OneLeavesAlone(cfg, s, e, k, i);
        var s' := ExecuteOne(cfg, s, e, k);
        var still' := if s'.intents[k].status == PartiallyFilled then still + [k] else still;
        QueueSkips(cfg, s', e, todo[1..], still', i);
        hide LeftAlone;
        LeftAloneTransitive(s, s', ExecuteQueue(cfg, s', e, todo[1..], still').0, i);
      }
    }
  }

  // The intent's scheduled number is not after the last event admitted.
  predicate Missed(s: Session, i: nat) {
    && i < |s.intents| && s.feed.lastSeq.Some? && s.intents[i].scheduled.Some?
    && s.intents[i].scheduled.value <= s.feed.lastSeq.value
  }

  lemma DecideLeavesAlone(cfg: Config, strategy: Strategy, s: Session, e: Event, i: nat)
    requires Names(s, s.pending) && i < |s.intents|
    ensures LeftAlone(s, Decide(cfg, strategy, s, e), i)
  {
    match strategy(s.shown)
    case Raises =>
    case Decision(signal, orders) =>
      SubmitAllFrame(cfg, s, e, signal, orders);
      hide SubmitAll, Record;
  }

  lemma EventLeavesAlone(cfg: Config, strategy: Strategy, s: Session, e: Event, i: nat)
    requires Names(s, s.pending) && Missed(s, i)
    ensures LeftAlone(s, ProcessEvent(cfg, strategy, s, e), i)
  {
    if Running(s) {
      AdmitShape(cfg, s, e);
      var s1 := Admit(cfg, s, e);
      assert LeftAlone(s, s1, i);
      if s1.halt == None {
        assert !Due(s1.intents[i], e);
        NoNames(s1);
        QueueSkips(cfg, s1, e, s1.pending, [], i);
        var s2 := ExecutePending(cfg, s1, e);
        assert LeftAlone(s1, s2, i);
        LeftAloneTransitive(s, s1, s2, i);
        hide Admit, ExecutePending, ExecuteQueue;
        if s2.halt == None {
          var s3 := Observed(s2, e);
          assert LeftAlone(s2, s3, i);
          DecideLeavesAlone(cfg, strategy, s3, e, i);
          hide Decide, Observed, LeftAlone;
          LeftAloneTransitive(s, s2, s3, i);
          LeftAloneTransitive(s, s3, Decide(cfg, strategy, s3, e), i);
        }
      }
    }
  }

  lemma {:induction false} RunLeavesAlone(cfg: Config, strategy: Strategy, s: Session, cs: seq<Command>, i: nat)
    requires Names(s, s.pending) && Missed(s, i)
    ensures LeftAlone(s, Run(cfg, strategy, s, cs), i)
    decreases |cs|
  {
    if cs != [] {
      var t := Obey(cfg, strategy, s, cs[0]);
      if cs[0].Tick? {
        EventLeavesAlone(cfg, strategy, s, cs[0].event, i);
      }
      hide ProcessEvent, Activate, Reset;
      assert LeftAlone(s, t, i);
      assert Missed(t, i);
      hide Obey, LeftAlone, Missed;
      RunLeavesAlone(cfg, strategy, t, cs[1..], i);
      LeftAloneTransitive(s, t, Run(cfg, strategy, t, cs[1..]), i);
    }
  }

  // Under either fill policy: an order, or the remainder of one, whose number has passed stays exactly as it is in
  // every continuation, and nothing more is ever filled for it.
  lemma {:induction false} MissedOrderNeverFills(cfg: Config, strategy: Strategy, before: seq<Command>,
                                                 after: seq<Command>, i: nat)
    requires Missed(Run(cfg, strategy, Opened(cfg), before), i)
    ensures var s := Run(cfg, strategy, Opened(cfg), before);
            var t := Run(cfg, strategy, s, after);
            && i < |t.intents| && t.intents[i] == s.intents[i]
            && |s.notes| <= |t.notes| && t.notes[..|s.notes|] == s.notes
            && forall j :: |s.notes| <= j < |t.notes| ==> t.notes[j].intent != i
  {
    var s := Run(cfg, strategy, Opened(cfg), before);
    hide Run, Opened;
    RunLeavesAlone(cfg, strategy, s, after, i);
  }

  // ---- the session's caps

  function AcceptedCount(intents: seq<Intent>): nat {
    if intents == [] then 0
    else AcceptedCount(intents[..|intents| - 1]) + (if intents[|intents| - 1].scheduled.Some? then 1 else 0)
  }

  // The counters describe what was accepted and respect the configured caps; the tolerance enters once.
  ghost predicate Capped(cfg: Config, s: Session) {
    && s.usage.orderCount == AcceptedCount(s.intents)
    && (cfg.risk.maxOrderCount.Some? ==>
          s.usage.orderCount == 0 || s.usage.orderCount <= cfg.risk.maxOrderCount.value)
    && (cfg.risk.maxTurnover.Some? ==>
          s.usage.turnover == 0.0 || s.usage.turnover <= cfg.risk.maxTurnover.value + EPS9)
  }

  lemma {:induction false} SameScheduled(a: seq<Intent>, b: seq<Intent>)
    requires |a| == |b| && forall i :: 0 <= i < |a| ==> (a[i].scheduled.Some? <==> b[i].scheduled.Some?)
    ensures AcceptedCount(a) == AcceptedCount(b)
  {
    if a != [] {
      SameScheduled(a[..|a| - 1], b[..|b| - 1]);
    }
  }

  lemma CappedSubmit(cfg: Config, s: Session, e: Event, signal: Signal, order: Order)
    requires Names(s, s.pending) && Capped(cfg, s)
    ensures Capped(cfg, Submit(cfg, s, e, signal, order))
  {
    ScreenedWellFormed(cfg, s, e, signal, order);
    var i := Screened(cfg, s, e, signal, order);
    var s' := Submit(cfg, s, e, signal, order);
    if i.status == Accepted {
      ScreenLeavesRoom(cfg.risk, s.usage, s.kill.triggered, i.order, e.bar.close, Quantity(s.book.book, e.bar.symbol),
                       MarketValue(s.book.book), Equity(s.book.book));
    }
    assert i.scheduled.Some? <==> i.status == Accepted;
    hide Screened, WellFormed, MarketValue, Equity, Quantity, Screen, Capped, Charged;
    assert s'.intents == s.intents + [i];
    assert s'.usage == if i.status == Accepted then Charged(s.usage, i.order.quantity, e.bar.close) else s.usage;
    hide Submit;
    CappedAdded(cfg, s, s', i, e.bar.close);
  }

  // One more intent, charged if it was accepted and had room.
  lemma CappedAdded(cfg: Config, s: Session, s': Session, i: Intent, close: real)
    requires Capped(cfg, s) && s'.intents == s.intents + [i]
    requires s'.usage == if i.scheduled.Some? then Charged(s.usage, i.order.quantity, close) else s.usage
    requires i.scheduled.Some? && cfg.risk.maxOrderCount.Some? ==> s.usage.orderCount < cfg.risk.maxOrderCount.value
    requires i.scheduled.Some? && cfg.risk.maxTurnover.Some? ==>
               s.usage.turnover + Value(i.order.quantity, close) <= cfg.risk.maxTurnover.value + EPS9
    ensures Capped(cfg, s')
  {
    hide Value;
    assert s'.intents[..|s.intents|] == s.intents;
  }

  lemma ScreenLeavesRoom(risk: PaperRiskConfig, u: Usage, triggered: bool, o: Order, close: real, position: real,
                         exposure: real, equity: real)
    requires Screen(risk, u, triggered, o, close, position, exposure, equity) == None
    ensures risk.maxOrderCount.Some? ==> u.orderCount < risk.maxOrderCount.value
    ensures risk.maxTurnover.Some? ==> u.turnover + Value(o.quantity, close) <= risk.maxTurnover.value + EPS9
  {
    hide Value;
  }

  predicate ScheduledAlike(a: seq<Intent>, b: seq<Intent>) {
    |a| == |b| && forall i :: 0 <= i < |a| ==> (a[i].scheduled.Some? <==> b[i].scheduled.Some?)
  }

  lemma {:induction false} QueueScheduledAlike(cfg: Config, s: Session, e: Event, todo: seq<nat>, still: seq<nat>)
    requires ValidConfig(cfg) && Life(cfg, s) && s.feed.lastSeq == Some(e.seqNo)
    requires Names(s, todo) && Names(s, still) && s.halt == None && QueueOk(s, still + todo)
    ensures ScheduledAlike(s.intents, ExecuteQueue(cfg, s, e, todo, still).0.intents)
    decreases |todo|
  {
    hide ExecuteOne, Due, ValidConfig, Life;
    if todo != [] {
      var k := todo[0];
      assert (still + todo)[|still|] == k;
      assert still + todo == (still + [k]) + todo[1..];
      if !Due(s.intents[k], e) {
        QueueScheduledAlike(cfg, s, e, todo[1..], still + [k]);
      } else {
        LifeAfterOne(cfg, s, e, k);
        MovedAfterOne(cfg, s, e, k);
        OneScheduledAlike(cfg, s, e, k);
        var s' := ExecuteOne(cfg, s, e, k);
        if s'.halt == None {
          QueueAfterOne(s, s', todo, still, k);
          hide QueueOk;
          var still' := if s'.intents[k].status == PartiallyFilled then still + [k] else still;
          QueueScheduledAlike(cfg, s', e, todo[1..], still');
        }
      }
    }
  }

  lemma OneScheduledAlike(cfg: Config, s: Session, e: Event, k: nat)
    requires ValidConfig(cfg) && Life(cfg, s) && s.halt == None && k < |s.intents| && Open(s.intents[k])
    ensures ScheduledAlike(s.intents, ExecuteOne(cfg, s, e, k).intents)
  {
    AttemptAtShape(cfg, s, e, k);
    ExecuteOneShape(cfg, s, e, k);
    IntentWellFormed(cfg, s, k);
    hide ExecuteOne, AttemptAt, Life, ValidConfig;
  }

  lemma {:induction false} CappedSubmitAll(cfg: Config, s: Session, e: Event, signal: Signal, orders: seq<Order>)
    requires Names(s, s.pending) && Capped(cfg, s)
    ensures Capped(cfg, SubmitAll(cfg, s, e, signal, orders))
    decreases |orders|
  {
    hide Capped, Submit;
    if orders != [] {
      CappedSubmit(cfg, s, e, signal, orders[0]);
      CappedSubmitAll(cfg, Submit(cfg, s, e, signal, orders[0]), e, signal, orders[1..]);
    }
  }

  lemma CappedFrame(cfg: Config, s: Session, t: Session)
    requires Capped(cfg, s) && t.usage.orderCount == s.usage.orderCount && t.usage.turnover == s.usage.turnover
    requires ScheduledAlike(s.intents, t.intents)
    ensures Capped(cfg, t)
  {
    SameScheduled(s.intents, t.intents);
  }

  lemma EventCapped(cfg: Config, strategy: Strategy, s: Session, e: Event)
    requires ValidConfig(cfg) && Alive(cfg, s) && Capped(cfg, s)
    ensures Capped(cfg, ProcessEvent(cfg, strategy, s, e))
  {
    AliveNames(cfg, s);
    if Running(s) {
      AdmitShape(cfg, s, e);
      AdmitLife(cfg, s, e);
      var s1 := Admit(cfg, s, e);
      hide Capped;
      CappedFrame(cfg, s, s1);
      if s1.halt == None {
        PendingLife(cfg, s1, e);
        PendingWalked(cfg, s1, e);
        NoNames(s1);
        assert [] + s1.pending == s1.pending;
        QueueScheduledAlike(cfg, s1, e, s1.pending, []);
        var s2 := ExecutePending(cfg, s1, e);
        assert s2.intents == ExecuteQueue(cfg, s1, e, s1.pending, []).0.intents;
        hide Alive, Admit, ExecutePending, ExecuteQueue, ValidConfig;
        CappedFrame(cfg, s1, s2);
        if s2.halt == None {
          var s3 := Observed(s2, e);
          CappedFrame(cfg, s2, s3);
          DecideCapped(cfg, strategy, s3, e);
        }
      }
    }
  }

  lemma DecideCapped(cfg: Config, strategy: Strategy, s: Session, e: Event)
    requires Names(s, s.pending) && Capped(cfg, s)
    ensures Capped(cfg, Decide(cfg, strategy, s, e))
  {
    hide Capped;
    match strategy(s.shown)
    case Raises => CappedFrame(cfg, s, Decide(cfg, strategy, s, e));
    case Decision(signal, orders) =>
      CappedSubmitAll(cfg, s, e, signal, orders);
      hide SubmitAll, Record;
      CappedFrame(cfg, SubmitAll(cfg, s, e, signal, orders), Decide(cfg, strategy, s, e));
  }

  lemma {:induction false} RunCapped(cfg: Config, strategy: Strategy, s: Session, cs: seq<Command>)
    requires ValidConfig(cfg) && Alive(cfg, s) && Capped(cfg, s)
    ensures Names(s, s.pending) && Capped(cfg, Run(cfg, strategy, s, cs))
    decreases |cs|
  {
    AliveNames(cfg, s);
    hide Alive, Capped, ValidConfig;
    if cs != [] {
      ObeyLife(cfg, strategy, s, cs[0]);
      var t := Obey(cfg, strategy, s, cs[0]);
      if cs[0].Tick? {
        EventCapped(cfg, strategy, s, cs[0].event);
      } else {
        CappedFrame(cfg, s, t);
      }
      hide Obey, ProcessEvent;
      RunCapped(cfg, strategy, t, cs[1..]);
    }
  }

  // In every run, for each cap that is set: the number of accepted orders stays within its cap, and the accepted
  // turnover within its cap plus one single tolerance, however many orders were accepted. A cap below zero leaves
  // the starting zero.
  lemma {:induction false} CapsHoldOverRuns(cfg: Config, strategy: Strategy, cs: seq<Command>)
    requires ValidConfig(cfg)
    ensures var s := Run(cfg, strategy, Opened(cfg), cs);
            && (cfg.risk.maxOrderCount.Some? ==>
                  AcceptedCount(s.intents) == 0 || AcceptedCount(s.intents) <= cfg.risk.maxOrderCount.value)
            && (cfg.risk.maxTurnover.Some? ==>
                  s.usage.turnover == 0.0 || s.usage.turnover <= cfg.risk.maxTurnover.value + EPS9)
  {
    OpenedAlive(cfg);
    assert Capped(cfg, Opened(cfg));
    RunCapped(cfg, strategy, Opened(cfg), cs);
    hide Run, Opened, Alive;
  }
}
