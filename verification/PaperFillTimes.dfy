// When and how often an order fills, under either fill policy and on any event list: its n-th fill is at the n-th
// number after the event that created it, and there are only so many of them: paper/session.py.

module PaperFillTimes {
  import opened Trading
  import opened Ledger
  import opened PaperOrders
  import opened PaperSessions
  import opened PaperAttempts
  import opened PaperLifecycle
  import opened PaperMoney
  import opened PaperTiming
  import opened PaperExecution
  import PartialFills

  // How many fills the notes give intent k.
  function FillsOf(notes: seq<Note>, k: nat): nat {
    if notes == [] then 0
    else FillsOf(notes[..|notes| - 1], k) + (if notes[|notes| - 1].intent == k then 1 else 0)
  }

  lemma FillsOfAppend(notes: seq<Note>, note: Note, k: nat)
    ensures FillsOf(notes + [note], k) == FillsOf(notes, k) + (if note.intent == k then 1 else 0)
  {
    assert (notes + [note])[..|notes|] == notes;
  }

  lemma {:induction false} NoFillsOf(notes: seq<Note>, k: nat)
    requires forall j :: 0 <= j < |notes| ==> notes[j].intent != k
    ensures FillsOf(notes, k) == 0
  {
    if notes != [] {
      NoFillsOf(notes[..|notes| - 1], k);
    }
  }

  // A fill is one number after the previous fill of its intent, or after the event that created the intent.
  predicate OnTime(s: Session, j: nat)
    requires j < |s.notes|
  {
    var k := s.notes[j].intent;
    && k < |s.intents| && s.intents[k].id.IntentId?
    && s.notes[j].eventSeq == s.intents[k].id.eventSeq + 1 + FillsOf(s.notes[..j], k)
  }

  // An open intent waits for the number after its last fill.
  predicate Waits(s: Session, k: nat)
    requires k < |s.intents|
  {
    Open(s.intents[k]) ==>
      && s.intents[k].id.IntentId?
      && s.intents[k].scheduled == Some(s.intents[k].id.eventSeq + 1 + FillsOf(s.notes, k))
  }

  // After n fills an open intent has exactly quantity * (1 - ratio)^n left, and no fill comes after enough of them.
  predicate Shrunk(cfg: Config, s: Session, k: nat)
    requires k < |s.intents|
  {
    var i, n := s.intents[k], FillsOf(s.notes, k);
    && (i.status == Accepted ==> n == 0)
    && (Open(i) ==> Remaining(i) == PartialFills.GeometricRest(i.order.quantity, cfg.exec.ratio, n))
    && (n > 1 ==> !PartialFills.EnoughFills(i.order.quantity, cfg.exec.ratio, n - 1))
  }

  ghost predicate Timed(cfg: Config, s: Session) {
    && (forall j: nat :: j < |s.notes| ==> OnTime(s, j))
    && (s.halt == None ==> forall k: nat :: k < |s.intents| ==> Waits(s, k))
    && (forall k: nat :: k < |s.intents| ==> Shrunk(cfg, s, k))
  }

  // ---- one attempt

  // What one fill makes of an open intent.
  predicate Shrinks(cfg: Config, i: Intent, j: Intent) {
    && Open(i) && WellFormed(cfg.exec, i) && j.order == i.order && j.status != Accepted
    && (Open(j) ==> Remaining(j) == PartialFills.Kept(Remaining(i), cfg.exec.ratio))
  }

  lemma FillShrinks(cfg: Config, s: Session, k: nat, n: nat)
    requires ValidConfig(cfg) && k < |s.intents| && Shrunk(cfg, s, k) && Open(s.intents[k])
    requires WellFormed(cfg.exec, s.intents[k]) && n == FillsOf(s.notes, k)
    ensures var q, r := s.intents[k].order.quantity, cfg.exec.ratio;
            && PartialFills.GeometricRest(q, r, n + 1) == PartialFills.Kept(Remaining(s.intents[k]), r)
            && (n > 0 ==> !PartialFills.EnoughFills(q, r, n))
  {
    var i, r := s.intents[k], cfg.exec.ratio;
    hide PartialFills.GeometricRest, PartialFills.EnoughFills, PartialFills.UnderHyperbola, PartialFills.Kept;
    PartialFills.RestStep(i.order.quantity, r, n + 1);
    if n > 0 {
      PartialFills.RestUnderHyperbola(i.order.quantity, r, n);
      PartialFills.NotEnoughYet(Remaining(i), i.order.quantity, r, n);
    }
  }

  lemma FilledShrunk(cfg: Config, s: Session, s': Session, k: nat, seqNo: int)
    requires ValidConfig(cfg) && Timed(cfg, s) && k < |s.intents| == |s'.intents|
    requires Shrinks(cfg, s.intents[k], s'.intents[k]) && s'.notes == s.notes + [Note(k, seqNo)]
    requires forall i :: 0 <= i < |s.intents| && i != k ==> s'.intents[i] == s.intents[i]
    ensures forall i: nat :: i < |s'.intents| ==> Shrunk(cfg, s', i)
  {
    hide PartialFills.GeometricRest, PartialFills.EnoughFills, PartialFills.Kept, FillsOf, ValidConfig, Remaining;
    forall i: nat | i < |s'.intents|
      ensures Shrunk(cfg, s', i)
    {
      FillsOfAppend(s.notes, Note(k, seqNo), i);
      assert Shrunk(cfg, s, i);
      if i == k {
        FillShrinks(cfg, s, k, FillsOf(s.notes, k));
      }
    }
  }

  // One more fill of k, everything else as it was.
  lemma FilledTimed(cfg: Config, s: Session, s': Session, k: nat, seqNo: int)
    requires Timed(cfg, s) && s.halt == None && k < |s.intents| == |s'.intents| && Open(s.intents[k])
    requires s.intents[k].scheduled == Some(seqNo) && s'.intents[k].id == s.intents[k].id
    requires forall i :: 0 <= i < |s.intents| && i != k ==> s'.intents[i] == s.intents[i]
    requires s'.notes == s.notes + [Note(k, seqNo)]
    requires s'.halt == None && Open(s'.intents[k]) ==> s'.intents[k].scheduled == Some(seqNo + 1)
    requires ValidConfig(cfg) && Shrinks(cfg, s.intents[k], s'.intents[k])
    ensures Timed(cfg, s')
  {
    FilledShrunk(cfg, s, s', k, seqNo);
    assert Waits(s, k);
    hide Shrunk, Shrinks;
    forall j: nat | j < |s'.notes|
      ensures OnTime(s', j)
    {
      assert s'.notes[..j] == s.notes[..j];
      if j < |s.notes| {
        assert OnTime(s, j);
      } else {
        assert s.notes[..j] == s.notes;
      }
    }
    forall i: nat | i < |s'.intents| && s'.halt == None
      ensures Waits(s', i)
    {
      FillsOfAppend(s.notes, Note(k, seqNo), i);
      assert Waits(s, i);
    }
  }

  // No fill: notes stay, and k is no longer open or the session has halted.
  lemma UnfilledTimed(cfg: Config, s: Session, s': Session, k: nat)
    requires Timed(cfg, s) && s.halt == None && k < |s.intents| == |s'.intents| && s'.intents[k].id == s.intents[k].id
    requires forall i :: 0 <= i < |s.intents| && i != k ==> s'.intents[i] == s.intents[i]
    requires s'.notes == s.notes && (s'.halt == None ==> !Open(s'.intents[k]))
    requires s'.intents[k] == s.intents[k] || (!Open(s'.intents[k]) && s'.intents[k].order == s.intents[k].order)
    ensures Timed(cfg, s')
  {
    forall i: nat | i < |s'.intents|
      ensures Shrunk(cfg, s', i)
    {
      assert Shrunk(cfg, s, i);
    }
    forall j: nat | j < |s'.notes|
      ensures OnTime(s', j)
    {
      assert OnTime(s, j);
    }
    forall i: nat | i < |s'.intents| && s'.halt == None
      ensures Waits(s', i)
    {
      assert Waits(s, i);
    }
  }

  lemma TimedAfterOne(cfg: Config, s: Session, e: Event, k: nat)
    requires ValidConfig(cfg) && Life(cfg, s) && Timed(cfg, s) && s.halt == None
    requires k < |s.intents| && Open(s.intents[k]) && Due(s.intents[k], e)
    ensures Timed(cfg, ExecuteOne(cfg, s, e, k))
  {
    AttemptAtShape(cfg, s, e, k);
    ExecuteOneShape(cfg, s, e, k);
    var a := AttemptAt(cfg, s, e, k);
    var s' := ExecuteOne(cfg, s, e, k);
    IntentWellFormed(cfg, s, k);
    if a.outcome.FilledWith? {
      AttemptShrinks(cfg, s, e, k);
    }
    var j := if a.outcome.FilledWith? && s'.halt == None then Reschedule(a.intent, e) else a.intent;
    assert s.intents[k].scheduled == Some(e.seqNo) && j.id == s.intents[k].id && j.order == s.intents[k].order;
    assert a.outcome.FilledWith? && s'.halt == None && Open(j) ==> j.scheduled == Some(e.seqNo + 1);
    assert !a.outcome.FilledWith? ==> j == s.intents[k] || !Open(j);
    assert a.outcome.Dropped? ==> !Open(j);
    hide *;
    if a.outcome.FilledWith? {
      FilledTimed(cfg, s, s', k, e.seqNo);
    } else {
      UnfilledTimed(cfg, s, s', k);
    }
  }

  lemma AttemptShrinks(cfg: Config, s: Session, e: Event, k: nat)
    requires ValidConfig(cfg) && Life(cfg, s) && s.halt == None && k < |s.intents| && Open(s.intents[k])
    requires AttemptAt(cfg, s, e, k).outcome.FilledWith?
    ensures Shrinks(cfg, s.intents[k], ExecuteOne(cfg, s, e, k).intents[k])
  {
    var i := s.intents[k];
    IntentWellFormed(cfg, s, k);
    assert VenueOk(s.venue);
    Attempted(cfg.exec, s.venue, i, e.bar.timestamp, e.bar.open, s.book.book.cash,
              Quantity(s.book.book, e.bar.symbol), Closed(cfg, e));
    ProposedShape(cfg.exec, s.venue.fillSeq + 1, i, NextQuantity(cfg.exec, i), e.bar.timestamp, e.bar.open);
    ExecuteOneShape(cfg, s, e, k);
    PartialFills.FillingShape(cfg.exec, i);
    assert AttemptAt(cfg, s, e, k).intent == PartialFills.Filling(cfg.exec, i);
    hide ExecuteOne, AttemptAt, ExecuteAtOpen, Life, WellFormed, NextQuantity, PartialFills.Filling, Against,
      ProposedFill;
    hide PartialFills.Kept;
  }

  lemma {:induction false} TimedAfterQueue(cfg: Config, s: Session, e: Event, todo: seq<nat>, still: seq<nat>)
    requires ValidConfig(cfg) && Life(cfg, s) && Timed(cfg, s) && s.halt == None && s.feed.lastSeq == Some(e.seqNo)
    requires Names(s, todo) && Names(s, still) && QueueOk(s, still + todo)
    ensures Timed(cfg, ExecuteQueue(cfg, s, e, todo, still).0)
    decreases |todo|
  {
    hide Life, ExecuteOne, Due, ValidConfig, Timed;
    if todo != [] {
      var k := todo[0];
      assert (still + todo)[|still|] == k;
      assert still + todo == (still + [k]) + todo[1..];
      if !Due(s.intents[k], e) {
        TimedAfterQueue(cfg, s, e, todo[1..], still + [k]);
      } else {
        LifeAfterOne(cfg, s, e, k);
        MovedAfterOne(cfg, s, e, k);
        TimedAfterOne(cfg, s, e, k);
        var s' := ExecuteOne(cfg, s, e, k);
        if s'.halt == None {
          QueueAfterOne(s, s', todo, still, k);
          TimedAfterQueue(cfg, s', e, todo[1..],
                          if s'.intents[k].status == PartiallyFilled then still + [k] else still);
        }
      }
    }
  }

  // ---- new intents

  lemma AddedTimed(cfg: Config, s: Session, s': Session, i: Intent, seqNo: int)
    requires Added(s, s', i) && Timed(cfg, s) && s.halt == None && i.id.IntentId? && i.id.eventSeq == seqNo
    requires Open(i) ==> i.scheduled == Some(seqNo + 1) && i.status == Accepted
    requires WellFormed(cfg.exec, i)
    ensures Timed(cfg, s')
  {
    PartialFills.RestStart(i.order.quantity, cfg.exec.ratio);
    hide PartialFills.GeometricRest, PartialFills.EnoughFills;
    forall j: nat | j < |s'.notes|
      ensures OnTime(s', j) && s.notes[j].intent < |s.intents|
    {
      assert OnTime(s, j);
    }
    NoFillsOf(s.notes, |s.intents|);
    forall k: nat | k < |s'.intents|
      ensures Waits(s', k) && Shrunk(cfg, s', k)
    {
      if k < |s.intents| {
        assert Waits(s, k) && Shrunk(cfg, s, k);
      }
    }
  }

  lemma {:induction false} TimedAfterSubmitAll(cfg: Config, s: Session, e: Event, signal: Signal, orders: seq<Order>)
    requires Names(s, s.pending) && Timed(cfg, s) && s.halt == None
    ensures Timed(cfg, SubmitAll(cfg, s, e, signal, orders))
    decreases |orders|
  {
    hide Timed;
    if orders != [] {
      ScreenedWellFormed(cfg, s, e, signal, orders[0]);
      var i := Screened(cfg, s, e, signal, orders[0]);
      var s1 := Submit(cfg, s, e, signal, orders[0]);
      assert Added(s, s1, i);
      hide Screened, Submit;
      AddedTimed(cfg, s, s1, i, e.seqNo);
      hide WellFormed;
      TimedAfterSubmitAll(cfg, s1, e, signal, orders[1..]);
    }
  }

  // ---- events and runs

  lemma TimedFrame(cfg: Config, s: Session, t: Session)
    requires Timed(cfg, s) && t.intents == s.intents && t.notes == s.notes && (t.halt == None ==> s.halt == None)
    ensures Timed(cfg, t)
  {
    forall j: nat | j < |t.notes|
      ensures OnTime(t, j)
    {
      assert OnTime(s, j);
    }
    forall k: nat | k < |t.intents| && t.halt == None
      ensures Waits(t, k)
    {
      assert Waits(s, k);
    }
    forall k: nat | k < |t.intents|
      ensures Shrunk(cfg, t, k)
    {
      assert Shrunk(cfg, s, k);
    }
  }

  lemma DecideTimed(cfg: Config, strategy: Strategy, s: Session, e: Event)
    requires Names(s, s.pending) && Timed(cfg, s) && s.halt == None
    ensures Timed(cfg, Decide(cfg, strategy, s, e))
  {
    hide Timed;
    match strategy(s.shown)
    case Raises => TimedFrame(cfg, s, Decide(cfg, strategy, s, e));
    case Decision(signal, orders) =>
      TimedAfterSubmitAll(cfg, s, e, signal, orders);
      var u := SubmitAll(cfg, s, e, signal, orders);
      SubmitAllFrame(cfg, s, e, signal, orders);
      hide SubmitAll, Record;
      TimedFrame(cfg, u, Decide(cfg, strategy, s, e));
  }

  lemma PendingTimed(cfg: Config, s: Session, e: Event)
    requires ValidConfig(cfg) && Alive(cfg, s) && Timed(cfg, s) && s.halt == None && s.feed.lastSeq == Some(e.seqNo)
    ensures Timed(cfg, ExecutePending(cfg, s, e))
  {
    NoNames(s);
    assert [] + s.pending == s.pending;
    hide Life, QueueOk, ValidConfig, Timed;
    TimedAfterQueue(cfg, s, e, s.pending, []);
    var q := ExecuteQueue(cfg, s, e, s.pending, []).0;
    hide ExecuteQueue;
    TimedFrame(cfg, q, ExecutePending(cfg, s, e));
  }

  lemma EventTimed(cfg: Config, strategy: Strategy, s: Session, e: Event)
    requires ValidConfig(cfg) && Alive(cfg, s) && Timed(cfg, s) && Names(s, s.pending)
    ensures Timed(cfg, ProcessEvent(cfg, strategy, s, e))
  {
    hide Timed, ValidConfig;
    if Running(s) {
      AdmitShape(cfg, s, e);
      AdmitLife(cfg, s, e);
      var s1 := Admit(cfg, s, e);
      hide Alive, Admit, Progress;
      TimedFrame(cfg, s, s1);
      if s1.halt == None {
        PendingLife(cfg, s1, e);
        PendingTimed(cfg, s1, e);
        var s2 := ExecutePending(cfg, s1, e);
        hide ExecutePending;
        if s2.halt == None {
          TimedFrame(cfg, s2, Observed(s2, e));
          DecideTimed(cfg, strategy, Observed(s2, e), e);
          hide Decide;
        }
      }
    }
  }

  lemma {:induction false} RunTimed(cfg: Config, strategy: Strategy, s: Session, cs: seq<Command>)
    requires ValidConfig(cfg) && Alive(cfg, s) && Timed(cfg, s) && Names(s, s.pending)
    ensures Timed(cfg, Run(cfg, strategy, s, cs))
    decreases |cs|
  {
    hide Alive, Timed, ValidConfig, Progress;
    if cs != [] {
      ObeyLife(cfg, strategy, s, cs[0]);
      var t := Obey(cfg, strategy, s, cs[0]);
      if cs[0].Tick? {
        EventTimed(cfg, strategy, s, cs[0].event);
      } else {
        TimedFrame(cfg, s, t);
      }
      hide Obey, ProcessEvent;
      RunTimed(cfg, strategy, t, cs[1..]);
    }
  }

  // Fill j is the next one of the intent that fill l belongs to.
  predicate NextFill(notes: seq<Note>, l: nat, j: nat) {
    && l < j < |notes| && notes[l].intent == notes[j].intent
    && forall i :: l < i < j ==> notes[i].intent != notes[j].intent
  }

  lemma {:induction false} OneMore(notes: seq<Note>, l: nat, j: nat, k: nat)
    requires l < j <= |notes| && notes[l].intent == k && forall i :: l < i < j ==> notes[i].intent != k
    ensures FillsOf(notes[..j], k) == FillsOf(notes[..l], k) + 1
  {
    assert notes[..j] == notes[..j - 1] + [notes[j - 1]];
    FillsOfAppend(notes[..j - 1], notes[j - 1], k);
    if j > l + 1 {
      OneMore(notes, l, j - 1, k);
    }
  }

  // Every run, either policy: the fill of an order with n fills before it is at exactly id.eventSeq + 1 + n, so the
  // first is at the number after the event that created the order and each later one at the number after the fill
  // before it; while the session has not halted, an open order is scheduled for its next such number. After n fills an
  // open order has exactly quantity * (1 - ratio)^n left, and no fill comes after enough of them.
  lemma {:induction false} FillsAreConsecutive(cfg: Config, strategy: Strategy, cs: seq<Command>)
    requires ValidConfig(cfg)
    ensures var s := Run(cfg, strategy, Opened(cfg), cs);
            && |s.notes| == |s.fills|
            && (forall j: nat :: j < |s.notes| ==> OnTime(s, j))
            && (forall l: nat, j: nat :: NextFill(s.notes, l, j) ==> s.notes[j].eventSeq == s.notes[l].eventSeq + 1)
            && (s.halt == None ==> forall k: nat :: k < |s.intents| ==> Waits(s, k))
            && forall k: nat :: k < |s.intents| ==> Shrunk(cfg, s, k)
  {
    OpenedAlive(cfg);
    assert Timed(cfg, Opened(cfg));
    AliveNames(cfg, Opened(cfg));
    RunTimed(cfg, strategy, Opened(cfg), cs);
    RunLife(cfg, strategy, Opened(cfg), cs);
    var s := Run(cfg, strategy, Opened(cfg), cs);
    hide Run, Opened, IntentsOk, SumsOk, OnceOk, VenueOk, QueueOk, Progress, ValidConfig;
    forall l: nat, j: nat | NextFill(s.notes, l, j)
      ensures s.notes[j].eventSeq == s.notes[l].eventSeq + 1
    {
      assert OnTime(s, l) && OnTime(s, j);
      OneMore(s.notes, l, j, s.notes[j].intent);
    }
  }

  // Enough fills stay enough.
  lemma EnoughStays(q: real, r: real, n: nat, m: nat)
    requires r > 0.0 && n <= m && PartialFills.EnoughFills(q, r, n)
    ensures PartialFills.EnoughFills(q, r, m)
  {
    assert m as real * r - n as real * r == (m - n) as real * r >= 0.0;
  }

  // The fill before note j counts at most as many fills as are enough.
  lemma {:induction false} FillsOfGrow(notes: seq<Note>, j: nat, k: nat)
    requires j < |notes| && notes[j].intent == k
    ensures FillsOf(notes[..j], k) < FillsOf(notes, k)
    decreases |notes|
  {
    var init := notes[..|notes| - 1];
    if j < |init| {
      FillsOfGrow(init, j, k);
      assert init[..j] == notes[..j];
    }
  }

  // Fill j is at the latest at the n-th number after its order's event, for every n that is enough.
  ghost predicate NotLate(cfg: Config, t: Session, j: nat)
    requires j < |t.notes| && t.notes[j].intent < |t.intents| && t.intents[t.notes[j].intent].id.IntentId?
  {
    var i := t.intents[t.notes[j].intent];
    forall n: nat :: n > 0 && PartialFills.EnoughFills(i.order.quantity, cfg.exec.ratio, n) ==>
      t.notes[j].eventSeq <= i.id.eventSeq + n
  }

  lemma OnTimeNotLate(cfg: Config, t: Session, j: nat)
    requires j < |t.notes| && OnTime(t, j) && Shrunk(cfg, t, t.notes[j].intent) && cfg.exec.ratio > 0.0
    ensures NotLate(cfg, t, j)
  {
    var k := t.notes[j].intent;
    var q, r, m := t.intents[k].order.quantity, cfg.exec.ratio, FillsOf(t.notes, k);
    hide PartialFills.EnoughFills, PartialFills.GeometricRest;
    FillsOfGrow(t.notes, j, k);
    forall n: nat | n > 0 && PartialFills.EnoughFills(q, r, n)
      ensures m <= n
    {
      if m > n {
        EnoughStays(q, r, n, m - 1);
        assert false;
      }
    }
  }

  // The freeze under either fill policy: once the kill switch is triggered and not reset, new orders are rejected, and
  // every later fill belongs to an order that was queued, comes one number after the order's fill before it, and is one
  // of the first n fills of the order, for every n that is enough.
  lemma {:induction false} FreezeEnds(cfg: Config, strategy: Strategy, before: seq<Command>, after: seq<Command>)
    requires ValidConfig(cfg) && NoReset(after)
    requires Run(cfg, strategy, Opened(cfg), before).kill.triggered
    ensures var s := Run(cfg, strategy, Opened(cfg), before);
            var t := Run(cfg, strategy, s, after);
            && |s.notes| <= |t.notes| && t.notes[..|s.notes|] == s.notes
            && (forall i :: |s.intents| <= i < |t.intents| ==> t.intents[i].status == Rejected)
            && (forall l: nat, j: nat :: NextFill(t.notes, l, j) ==> t.notes[j].eventSeq == t.notes[l].eventSeq + 1)
            && (forall j: nat :: |s.notes| <= j < |t.notes| ==> t.notes[j].intent in s.pending)
            && (forall j: nat :: j < |t.notes| ==> OnTime(t, j) && NotLate(cfg, t, j))
  {
    assert cfg.exec.ratio > 0.0;
    OpenedAlive(cfg);
    AliveNames(cfg, Opened(cfg));
    hide Run, Opened, ValidConfig, NoReset, Alive, NotLate, Shrunk, NextFill;
    OnlyQueuedOrdersFill(cfg, strategy, before, after);
    RunJoined(cfg, strategy, Opened(cfg), before, after);
    FillsAreConsecutive(cfg, strategy, before + after);
    var t := Run(cfg, strategy, Opened(cfg), before + after);
    forall j: nat | j < |t.notes|
      ensures OnTime(t, j) && NotLate(cfg, t, j)
    {
      assert OnTime(t, j);
      OnTimeNotLate(cfg, t, j);
    }
  }

  lemma {:induction false} RunJoined(cfg: Config, strategy: Strategy, s: Session, before: seq<Command>,
                                     after: seq<Command>)
    requires Names(s, s.pending)
    ensures Run(cfg, strategy, s, before + after) == Run(cfg, strategy, Run(cfg, strategy, s, before), after)
    decreases |before|
  {
    hide Obey;
    if before == [] {
      assert before + after == after;
    } else {
      assert (before + after)[0] == before[0] && (before + after)[1..] == before[1..] + after;
      RunJoined(cfg, strategy, Obey(cfg, strategy, s, before[0]), before[1..], after);
    }
  }
}
