// Order lifecycle over whole paper runs: legal transitions only, terminal states fixed, filled quantities equal to
// the fills, and under all-or-nothing at most one fill per intent, at its scheduled event.

module PaperLifecycle {
  import opened Trading
  import opened Ledger
  import opened PaperOrders
  import opened MarketData
  import opened PaperRisk
  import opened PaperExecution
  import opened PaperBooks
  import opened PaperSessions
  import opened PaperAttempts
  import opened WholeFills

  // The quantity the fills give intent k.
  function FilledSum(notes: seq<Note>, fills: seq<Fill>, k: nat): real
    requires |notes| == |fills|
  {
    if notes == [] then 0.0
    else
      var n := |notes| - 1;
      FilledSum(notes[..n], fills[..n], k) + (if notes[n].intent == k then fills[n].quantity else 0.0)
  }

  lemma FilledSumAppend(notes: seq<Note>, fills: seq<Fill>, note: Note, f: Fill, k: nat)
    requires |notes| == |fills|
    ensures FilledSum(notes + [note], fills + [f], k) ==
            FilledSum(notes, fills, k) + (if note.intent == k then f.quantity else 0.0)
  {
    assert (notes + [note])[..|notes|] == notes && (fills + [f])[..|fills|] == fills;
  }

  lemma {:induction false} FilledSumZero(notes: seq<Note>, fills: seq<Fill>, k: nat)
    requires |notes| == |fills| && forall j :: 0 <= j < |notes| ==> notes[j].intent != k
    ensures FilledSum(notes, fills, k) == 0.0
  {
    if notes != [] {
      FilledSumZero(notes[..|notes| - 1], fills[..|notes| - 1], k);
    }
  }

  ghost predicate IntentsOk(cfg: Config, s: Session) {
    forall i :: 0 <= i < |s.intents| ==>
      && WellFormed(cfg.exec, s.intents[i])
      && s.feed.lastSeq.Some? && s.intents[i].id.eventSeq <= s.feed.lastSeq.value
  }

  predicate FillOf(f: Fill, o: Order) {
    f.symbol == o.symbol && f.side == o.side && f.orderId == o.id
  }

  // The j-th fill belongs to the intent its note names.
  predicate NoteOk(s: Session, j: nat)
    requires j < |s.notes| && |s.notes| == |s.fills|
  {
    && s.notes[j].intent < |s.intents|
    && FillOf(s.fills[j], s.intents[s.notes[j].intent].order)
    && s.feed.lastSeq.Some? && s.notes[j].eventSeq <= s.feed.lastSeq.value
  }

  ghost predicate NotesOk(s: Session) {
    |s.notes| == |s.fills| && forall j: nat :: j < |s.notes| ==> NoteOk(s, j)
  }

  ghost predicate SumsOk(s: Session)
    requires |s.notes| == |s.fills|
  {
    forall k: nat :: k < |s.intents| ==> s.intents[k].filled == FilledSum(s.notes, s.fills, k)
  }

  // Under all-or-nothing a noted intent is filled, at its scheduled event, once.
  ghost predicate OnceOk(cfg: Config, s: Session) {
    cfg.exec.policy == AllOrNothing ==>
      && (forall j :: 0 <= j < |s.notes| ==>
            && s.notes[j].intent < |s.intents|
            && s.intents[s.notes[j].intent].status == Filled
            && s.intents[s.notes[j].intent].scheduled == Some(s.notes[j].eventSeq))
      && (forall j, l :: 0 <= j < l < |s.notes| ==> s.notes[j].intent != s.notes[l].intent)
  }

  ghost predicate Life(cfg: Config, s: Session) {
    VenueOk(s.venue) && IntentsOk(cfg, s) && NotesOk(s) && SumsOk(s) && OnceOk(cfg, s)
  }

  // A queue names distinct open intents.
  ghost predicate QueueOk(s: Session, names: seq<nat>) {
    && (forall j :: 0 <= j < |names| ==> names[j] < |s.intents| && Open(s.intents[names[j]]))
    && (forall j, l :: 0 <= j < l < |names| ==> names[j] != names[l])
  }

  // No intent leaves its place, changes its order, or moves except along the transition table.
  ghost predicate Progress(s: Session, t: Session) {
    && |s.intents| <= |t.intents|
    && forall i :: 0 <= i < |s.intents| ==>
         && t.intents[i].id == s.intents[i].id && t.intents[i].order == s.intents[i].order
         && (t.intents[i].status == s.intents[i].status || Allowed(s.intents[i].status, t.intents[i].status))
         && (Terminal(s.intents[i].status) ==> t.intents[i] == s.intents[i])
  }

  lemma ProgressTransitive(s: Session, t: Session, u: Session)
    requires Progress(s, t) && Progress(t, u)
    requires forall i :: 0 <= i < |s.intents| ==> s.intents[i].status in {Rejected, Accepted, PartiallyFilled, Filled}
    ensures Progress(s, u)
  {
  }

  // ---- one attempt

  lemma AttemptAtShape(cfg: Config, s: Session, e: Event, k: nat)
    requires ValidConfig(cfg) && Life(cfg, s) && k < |s.intents| && Open(s.intents[k])
    ensures var a := AttemptAt(cfg, s, e, k);
            var i := s.intents[k];
            && WellFormed(cfg.exec, a.intent) && VenueOk(a.venue)
            && a.intent.order == i.order && a.intent.id == i.id && a.intent.scheduled == i.scheduled
            && (a.intent.status == i.status || Allowed(i.status, a.intent.status))
            && (match a.outcome
                case FilledWith(f) =>
                  a.intent.filled == i.filled + f.quantity && a.intent.status != Accepted && FillOf(f, i.order)
                case Dropped(_) =>
                  a.intent.filled == i.filled && a.intent.status == Rejected && i.status == Accepted
                case Threw(fault) => a.intent == i && (fault == IllegalTransition ==> i.status == PartiallyFilled))
  {
    IntentWellFormed(cfg, s, k);
    AttemptedShape(cfg.exec, s.venue, s.intents[k], e.bar.timestamp, e.bar.open, s.book.book.cash,
                   Quantity(s.book.book, e.bar.symbol), Closed(cfg, e));
    hide ExecuteAtOpen, WellFormed, VenueOk, Closed, Quantity, BalancedFill, ValidFill, Life;
  }

  // How the session takes up an attempt's outcome.
  lemma ExecuteOneShape(cfg: Config, s: Session, e: Event, k: nat)
    requires k < |s.intents| && s.halt == None
    ensures var a := AttemptAt(cfg, s, e, k);
            var s' := ExecuteOne(cfg, s, e, k);
            && s'.venue == a.venue && s'.feed == s.feed && s'.usage == s.usage && s'.kill == s.kill
            && s'.shown == s.shown && s'.history == s.history && s'.started == s.started && s'.stopped == s.stopped
            && s'.intents == s.intents[k := if a.outcome.FilledWith? && s'.halt == None then Reschedule(a.intent, e)
                                            else a.intent]
            && (match a.outcome
                case FilledWith(f) =>
                  && s'.fills == s.fills + [f] && s'.notes == s.notes + [Note(k, e.seqNo)]
                  && s'.book == Applied(s.book, f)
                  && s'.halt == (if CannotApply(s.book, f) then Some(LedgerRefused) else None)
                case Dropped(_) =>
                  s'.fills == s.fills && s'.notes == s.notes && s'.book == s.book && s'.halt == None
                case Threw(fault) =>
                  s'.fills == s.fills && s'.notes == s.notes && s'.book == s.book
                  && s'.halt == Some(Exception(fault)))
  {
    hide AttemptAt, Applied, CannotApply;
  }

  lemma IntentWellFormed(cfg: Config, s: Session, k: nat)
    requires IntentsOk(cfg, s) && k < |s.intents|
    ensures WellFormed(cfg.exec, s.intents[k])
  {
    hide WellFormed;
  }

  lemma RescheduleWellFormed(cfg: Config, i: Intent, e: Event)
    requires WellFormed(cfg.exec, i)
    ensures WellFormed(cfg.exec, Reschedule(i, e))
  {
  }

  lemma IntentsAfterOne(cfg: Config, s: Session, e: Event, k: nat)
    requires ValidConfig(cfg) && Life(cfg, s) && k < |s.intents| && Open(s.intents[k]) && s.halt == None
    ensures IntentsOk(cfg, ExecuteOne(cfg, s, e, k))
  {
    AttemptAtShape(cfg, s, e, k);
    ExecuteOneShape(cfg, s, e, k);
    RescheduleWellFormed(cfg, AttemptAt(cfg, s, e, k).intent, e);
    hide ExecuteOne, AttemptAt, WellFormed, NotesOk, SumsOk, OnceOk, VenueOk, ValidConfig;
  }

  lemma NotesAfterOne(cfg: Config, s: Session, e: Event, k: nat)
    requires ValidConfig(cfg) && Life(cfg, s) && k < |s.intents| && Open(s.intents[k]) && s.halt == None
    requires s.feed.lastSeq == Some(e.seqNo)
    ensures NotesOk(ExecuteOne(cfg, s, e, k))
  {
    AttemptAtShape(cfg, s, e, k);
    ExecuteOneShape(cfg, s, e, k);
    hide ExecuteOne, AttemptAt, WellFormed, SumsOk, OnceOk, VenueOk, ValidConfig, IntentsOk;
    var s' := ExecuteOne(cfg, s, e, k);
    forall j: nat | j < |s'.notes|
      ensures NoteOk(s', j)
    {
      if j < |s.notes| {
        assert NoteOk(s, j);
      }
    }
  }

  lemma SumsAfterOne(cfg: Config, s: Session, e: Event, k: nat)
    requires ValidConfig(cfg) && Life(cfg, s) && k < |s.intents| && Open(s.intents[k]) && s.halt == None
    requires s.feed.lastSeq == Some(e.seqNo)
    ensures NotesOk(ExecuteOne(cfg, s, e, k)) && SumsOk(ExecuteOne(cfg, s, e, k))
  {
    NotesAfterOne(cfg, s, e, k);
    AttemptAtShape(cfg, s, e, k);
    ExecuteOneShape(cfg, s, e, k);
    var a := AttemptAt(cfg, s, e, k);
    hide ExecuteOne, AttemptAt, WellFormed, OnceOk, VenueOk, ValidConfig, IntentsOk, FilledSum;
    var s' := ExecuteOne(cfg, s, e, k);
    forall i: nat | i < |s'.intents|
      ensures s'.intents[i].filled == FilledSum(s'.notes, s'.fills, i)
    {
      if a.outcome.FilledWith? {
        FilledSumAppend(s.notes, s.fills, Note(k, e.seqNo), a.outcome.fill, i);
      }
    }
  }

  lemma OnceAfterOne(cfg: Config, s: Session, e: Event, k: nat)
    requires ValidConfig(cfg) && Life(cfg, s) && k < |s.intents| && Open(s.intents[k]) && s.halt == None
    requires Due(s.intents[k], e)
    ensures OnceOk(cfg, ExecuteOne(cfg, s, e, k))
  {
    AttemptAtShape(cfg, s, e, k);
    ExecuteOneShape(cfg, s, e, k);
    var a := AttemptAt(cfg, s, e, k);
    hide ExecuteOne, AttemptAt, SumsOk, NotesOk, VenueOk, ValidConfig, IntentsOk;
    if cfg.exec.policy == AllOrNothing {
      assert a.intent.status != PartiallyFilled && s.intents[k].status == Accepted;
      hide WellFormed, Life, FillOf;
      OnceStep(cfg, s, ExecuteOne(cfg, s, e, k), k, e);
    }
  }

  // One more fill, of an intent still open before it; every other intent is as it was.
  lemma OnceStep(cfg: Config, s: Session, s': Session, k: nat, e: Event)
    requires cfg.exec.policy == AllOrNothing && OnceOk(cfg, s) && k < |s.intents| == |s'.intents|
    requires s.intents[k].status == Accepted && s.intents[k].scheduled == Some(e.seqNo)
    requires forall i :: 0 <= i < |s.intents| && i != k ==> s'.intents[i] == s.intents[i]
    requires s'.notes == s.notes
             || (s'.notes == s.notes + [Note(k, e.seqNo)] && s'.intents[k].status == Filled
                 && s'.intents[k].scheduled == Some(e.seqNo))
    ensures OnceOk(cfg, s')
  {
  }

  // What one attempt changes outside the queue's bookkeeping.
  ghost predicate OneMoved(cfg: Config, s: Session, s': Session, k: nat)
    requires k < |s.intents|
  {
    && |s'.intents| == |s.intents| && s'.feed == s.feed && Progress(s, s')
    && (forall i :: 0 <= i < |s.intents| && i != k ==> s'.intents[i] == s.intents[i])
    && (s'.halt == None ==> s'.intents[k].status == PartiallyFilled || !Open(s'.intents[k]))
    && (cfg.exec.policy == AllOrNothing ==> s'.halt != Some(Exception(IllegalTransition)))
  }

  lemma MovedAfterOne(cfg: Config, s: Session, e: Event, k: nat)
    requires ValidConfig(cfg) && Life(cfg, s) && k < |s.intents| && Open(s.intents[k]) && s.halt == None
    ensures OneMoved(cfg, s, ExecuteOne(cfg, s, e, k), k)
  {
    AttemptAtShape(cfg, s, e, k);
    ExecuteOneShape(cfg, s, e, k);
    IntentWellFormed(cfg, s, k);
    var a := AttemptAt(cfg, s, e, k);
    var i, j := s.intents[k], if a.outcome.FilledWith? then Reschedule(a.intent, e) else a.intent;
    assert cfg.exec.policy == AllOrNothing ==> i.status != PartiallyFilled;
    assert j.id == i.id && j.order == i.order && j.status == a.intent.status && !Terminal(i.status);
    hide ExecuteOne, AttemptAt, WellFormed, Life, ValidConfig, Applied, CannotApply, FillOf, OneMoved;
    OneMovedTo(cfg, s, ExecuteOne(cfg, s, e, k), k, ExecuteOne(cfg, s, e, k).intents[k]);
  }

  lemma OneMovedTo(cfg: Config, s: Session, s': Session, k: nat, j: Intent)
    requires k < |s.intents| && s'.intents == s.intents[k := j] && s'.feed == s.feed
    requires j.id == s.intents[k].id && j.order == s.intents[k].order && !Terminal(s.intents[k].status)
    requires j.status == s.intents[k].status || Allowed(s.intents[k].status, j.status)
    requires s'.halt == None ==> j.status == PartiallyFilled || !Open(j)
    requires cfg.exec.policy == AllOrNothing ==> s'.halt != Some(Exception(IllegalTransition))
    ensures OneMoved(cfg, s, s', k)
  {
    hide Allowed, Terminal, Open;
  }

  lemma LifeAfterOne(cfg: Config, s: Session, e: Event, k: nat)
    requires ValidConfig(cfg) && Life(cfg, s) && k < |s.intents| && Open(s.intents[k]) && s.halt == None
    requires s.feed.lastSeq == Some(e.seqNo) && Due(s.intents[k], e)
    ensures Life(cfg, ExecuteOne(cfg, s, e, k))
  {
    IntentsAfterOne(cfg, s, e, k);
    SumsAfterOne(cfg, s, e, k);
    OnceAfterOne(cfg, s, e, k);
    VenueAfterOne(cfg, s, e, k);
    hide ExecuteOne, SumsOk, NotesOk, VenueOk, ValidConfig, IntentsOk, OnceOk, Due, Open;
  }

  lemma VenueAfterOne(cfg: Config, s: Session, e: Event, k: nat)
    requires ValidConfig(cfg) && Life(cfg, s) && k < |s.intents| && Open(s.intents[k]) && s.halt == None
    ensures VenueOk(ExecuteOne(cfg, s, e, k).venue)
  {
    AttemptAtShape(cfg, s, e, k);
    ExecuteOneShape(cfg, s, e, k);
    hide ExecuteOne, AttemptAt, WellFormed, Life, ValidConfig, VenueOk;
  }

  // ---- the queue

  // One round of the queue walk.
  lemma QueueStep(cfg: Config, s: Session, e: Event, todo: seq<nat>, still: seq<nat>)
    requires Names(s, todo) && Names(s, still) && todo != [] && s.halt == None && Due(s.intents[todo[0]], e)
    ensures var s' := ExecuteOne(cfg, s, e, todo[0]);
            var still' := if s'.intents[todo[0]].status == PartiallyFilled then still + [todo[0]] else still;
            && Names(s', todo[1..]) && Names(s', still')
            && ExecuteQueue(cfg, s, e, todo, still) == ExecuteQueue(cfg, s', e, todo[1..], still')
  {
    hide ExecuteOne, Due;
  }

  lemma QueueSkip(cfg: Config, s: Session, e: Event, todo: seq<nat>, still: seq<nat>)
    requires Names(s, todo) && Names(s, still) && todo != [] && s.halt == None && !Due(s.intents[todo[0]], e)
    ensures Names(s, todo[1..]) && Names(s, still + [todo[0]])
    ensures ExecuteQueue(cfg, s, e, todo, still) == ExecuteQueue(cfg, s, e, todo[1..], still + [todo[0]])
  {
    hide ExecuteOne, Due;
  }

  lemma QueueStops(cfg: Config, s: Session, e: Event, todo: seq<nat>, still: seq<nat>)
    requires Names(s, todo) && Names(s, still) && s.halt.Some?
    ensures ExecuteQueue(cfg, s, e, todo, still) == (s, still)
  {
    hide ExecuteOne, Due;
  }

  lemma {:induction false} LifeAfterQueue(cfg: Config, s: Session, e: Event, todo: seq<nat>, still: seq<nat>)
    requires ValidConfig(cfg) && Life(cfg, s) && s.feed.lastSeq == Some(e.seqNo)
    requires Names(s, todo) && Names(s, still)
    requires s.halt == None && QueueOk(s, still + todo)
    ensures var r := ExecuteQueue(cfg, s, e, todo, still);
            && Life(cfg, r.0) && Progress(s, r.0) && r.0.feed == s.feed
            && (r.0.halt == None ==> QueueOk(r.0, r.1))
            && (cfg.exec.policy == AllOrNothing ==> r.0.halt != Some(Exception(IllegalTransition)))
    decreases |todo|
  {
    hide Life, ExecuteOne, Due, ValidConfig, Progress;
    if todo == [] {
      assert still + todo == still;
      ProgressRefl(s);
    } else {
      var k := todo[0];
      assert (still + todo)[|still|] == k;
      assert still + todo == (still + [k]) + todo[1..];
      if !Due(s.intents[k], e) {
        LifeAfterQueue(cfg, s, e, todo[1..], still + [k]);
      } else {
        LifeAfterOne(cfg, s, e, k);
        MovedAfterOne(cfg, s, e, k);
        var s' := ExecuteOne(cfg, s, e, k);
        var still' := if s'.intents[k].status == PartiallyFilled then still + [k] else still;
        if s'.halt == None {
          QueueAfterOne(s, s', todo, still, k);
          LifeAfterQueue(cfg, s', e, todo[1..], still');
          var r := ExecuteQueue(cfg, s', e, todo[1..], still');
          assert r == ExecuteQueue(cfg, s, e, todo, still);
          LifeStatuses(cfg, s);
          ProgressTransitive(s, s', r.0);
        }
      }
    }
  }

  lemma ProgressRefl(s: Session)
    ensures Progress(s, s)
  {
  }

  lemma LifeStatuses(cfg: Config, s: Session)
    requires Life(cfg, s)
    ensures forall i :: 0 <= i < |s.intents| ==>
              s.intents[i].status in {Rejected, Accepted, PartiallyFilled, Filled}
  {
    hide VenueOk, NotesOk, SumsOk, OnceOk;
  }

  lemma QueueAfterOne(s: Session, s': Session, todo: seq<nat>, still: seq<nat>, k: nat)
    requires todo != [] && k == todo[0] && QueueOk(s, still + todo) && |s'.intents| == |s.intents|
    requires k < |s.intents|
    requires forall i :: 0 <= i < |s.intents| && i != k ==> s'.intents[i] == s.intents[i]
    requires s'.intents[k].status == PartiallyFilled || !Open(s'.intents[k])
    ensures QueueOk(s', (if s'.intents[k].status == PartiallyFilled then still + [k] else still) + todo[1..])
  {
    var all := still + todo;
    assert all[|still|] == k;
    if s'.intents[k].status == PartiallyFilled {
      assert still + [k] + todo[1..] == all;
    } else {
      var rest := still + todo[1..];
      assert (if s'.intents[k].status == PartiallyFilled then still + [k] else still) + todo[1..] == rest;
      forall j | 0 <= j < |rest|
        ensures rest[j] == all[if j < |still| then j else j + 1]
        ensures rest[j] < |s.intents| && Open(s'.intents[rest[j]])
      {
        assert all[if j < |still| then j else j + 1] != all[|still|];
      }
      forall j, l | 0 <= j < l < |rest|
        ensures rest[j] != rest[l]
      {
        assert rest[j] == all[if j < |still| then j else j + 1] && rest[l] == all[if l < |still| then l else l + 1];
      }
    }
  }

  // ---- new intents

  lemma ScreenedWellFormed(cfg: Config, s: Session, e: Event, signal: Signal, order: Order)
    ensures var i := Screened(cfg, s, e, signal, order);
            && WellFormed(cfg.exec, i) && i.status in {Rejected, Accepted} && i.filled == 0.0
            && i.id.eventSeq == e.seqNo && i.order.symbol == order.symbol && i.order.quantity == order.quantity
            && i.order.side == order.side
            && (i.status == Accepted ==> i.scheduled == Some(e.seqNo + 1))
            && (i.status == Accepted ==> !s.kill.triggered)
            && (i.status == Accepted ==>
                  Screen(cfg.risk, s.usage, s.kill.triggered, i.order, e.bar.close, Quantity(s.book.book, e.bar.symbol),
                         MarketValue(s.book.book), Equity(s.book.book)) == None)
  {
    hide Blank, Value, MarketValue, Equity, Quantity, Fixed8;
    var i := MakeIntent(cfg.exec.session, order, signal, e.seqNo);
    if StructuralReason(i.order) == None {
      var verdict := Screen(cfg.risk, s.usage, s.kill.triggered, i.order, e.bar.close,
                            Quantity(s.book.book, e.bar.symbol), MarketValue(s.book.book), Equity(s.book.book));
      assert s.kill.triggered ==> verdict.Some?;
    }
    hide Screen;
  }

  // Submission adds one intent, and queues it if it was accepted.
  ghost predicate Added(s: Session, s': Session, i: Intent) {
    && s' == s.(intents := s.intents + [i], usage := s'.usage, pending := s'.pending)
    && s'.pending == (if i.status == Accepted then s.pending + [|s.intents|] else s.pending)
  }

  // No note names the new intent yet.
  lemma AddedNotes(s: Session, s': Session, i: Intent)
    requires Added(s, s', i) && NotesOk(s) && SumsOk(s) && i.filled == 0.0
    ensures NotesOk(s') && SumsOk(s')
  {
    hide FilledSum, FillOf;
    forall j: nat | j < |s'.notes|
      ensures NoteOk(s', j) && s.notes[j].intent < |s.intents|
    {
      assert NoteOk(s, j);
    }
    FilledSumZero(s.notes, s.fills, |s.intents|);
  }

  lemma AddedOnce(cfg: Config, s: Session, s': Session, i: Intent)
    requires Added(s, s', i) && OnceOk(cfg, s)
    ensures OnceOk(cfg, s')
  {
  }

  lemma AddedQueue(s: Session, s': Session, i: Intent)
    requires Added(s, s', i) && QueueOk(s, s.pending)
    ensures QueueOk(s', s'.pending) && Progress(s, s')
  {
  }

  lemma LifeAfterSubmit(cfg: Config, s: Session, e: Event, signal: Signal, order: Order)
    requires Names(s, s.pending) && Life(cfg, s) && s.feed.lastSeq == Some(e.seqNo) && QueueOk(s, s.pending)
    ensures var s' := Submit(cfg, s, e, signal, order);
            && Life(cfg, s') && QueueOk(s', s'.pending) && Progress(s, s') && s'.feed == s.feed && s'.halt == s.halt
  {
    ScreenedWellFormed(cfg, s, e, signal, order);
    var i := Screened(cfg, s, e, signal, order);
    var s' := Submit(cfg, s, e, signal, order);
    hide Screened, WellFormed, Charged, MarketValue, Equity, VenueOk, NotesOk, SumsOk, OnceOk, QueueOk, Progress;
    assert Added(s, s', i);
    hide Submit;
    AddedNotes(s, s', i);
    AddedOnce(cfg, s, s', i);
    AddedQueue(s, s', i);
  }

  lemma {:induction false} LifeAfterSubmitAll(cfg: Config, s: Session, e: Event, signal: Signal, orders: seq<Order>)
    requires Names(s, s.pending) && Life(cfg, s) && s.feed.lastSeq == Some(e.seqNo) && QueueOk(s, s.pending)
    ensures var s' := SubmitAll(cfg, s, e, signal, orders);
            && Life(cfg, s') && QueueOk(s', s'.pending) && Progress(s, s') && s'.feed == s.feed && s'.halt == s.halt
    decreases |orders|
  {
    hide Submit, Life, QueueOk, Progress;
    if orders == [] {
      ProgressRefl(s);
    } else {
      LifeAfterSubmit(cfg, s, e, signal, orders[0]);
      var s1 := Submit(cfg, s, e, signal, orders[0]);
      LifeAfterSubmitAll(cfg, s1, e, signal, orders[1..]);
      LifeStatuses(cfg, s);
      ProgressTransitive(s, s1, SubmitAll(cfg, s1, e, signal, orders[1..]));
    }
  }

  // ---- whole events and whole runs

  ghost predicate Alive(cfg: Config, s: Session) {
    && Names(s, s.pending) && Life(cfg, s)
    && (s.halt == None ==> QueueOk(s, s.pending))
    && (cfg.exec.policy == AllOrNothing ==> s.halt != Some(Exception(IllegalTransition)))
  }

  lemma IntentsFrame(cfg: Config, s: Session, t: Session)
    requires IntentsOk(cfg, s) && t.intents == s.intents
    requires s.feed.lastSeq.Some? ==> t.feed.lastSeq.Some? && s.feed.lastSeq.value <= t.feed.lastSeq.value
    ensures IntentsOk(cfg, t)
  {
    hide WellFormed;
    forall i | 0 <= i < |t.intents|
      ensures WellFormed(cfg.exec, t.intents[i])
    {
      assert WellFormed(cfg.exec, s.intents[i]);
    }
  }

  // Only fields the lifecycle does not look at may differ.
  lemma LifeFrame(cfg: Config, s: Session, t: Session)
    requires Life(cfg, s)
    requires t.venue == s.venue && t.intents == s.intents && t.fills == s.fills && t.notes == s.notes
    requires s.feed.lastSeq.Some? ==> t.feed.lastSeq.Some? && s.feed.lastSeq.value <= t.feed.lastSeq.value
    ensures Life(cfg, t) && Progress(s, t)
    ensures forall names :: QueueOk(s, names) ==> QueueOk(t, names)
  {
    hide WellFormed, VenueOk, FilledSum, IntentsOk;
    forall j: nat | j < |t.notes|
      ensures NoteOk(t, j)
    {
      assert NoteOk(s, j);
    }
    IntentsFrame(cfg, s, t);
    assert NotesOk(t) && SumsOk(t) && OnceOk(cfg, t);
  }

  lemma AdmitLife(cfg: Config, s: Session, e: Event)
    requires Alive(cfg, s) && s.halt == None
    ensures var t := Admit(cfg, s, e);
            Alive(cfg, t) && Progress(s, t) && (t.halt == None ==> t.feed.lastSeq == Some(e.seqNo))
  {
    hide Life, QueueOk, Progress;
    var t := Admit(cfg, s, e);
    assert t.halt == None ==> s.feed.lastSeq.Some? ==> s.feed.lastSeq.value < e.seqNo;
    hide Issues;
    LifeFrame(cfg, s, t);
  }

  lemma PendingLife(cfg: Config, s: Session, e: Event)
    requires ValidConfig(cfg) && Alive(cfg, s) && s.halt == None && s.feed.lastSeq == Some(e.seqNo)
    ensures var t := ExecutePending(cfg, s, e);
            Alive(cfg, t) && Progress(s, t) && t.feed == s.feed
  {
    hide Life, QueueOk, Progress, ExecuteQueue, Names, ValidConfig;
    assert [] + s.pending == s.pending;
    assert Names(s, []) by { NoNames(s); }
    LifeAfterQueue(cfg, s, e, s.pending, []);
    var (q, still) := ExecuteQueue(cfg, s, e, s.pending, []);
    var t := ExecutePending(cfg, s, e);
    LifeFrame(cfg, q, t);
    LifeStatuses(cfg, s);
    ProgressTransitive(s, q, t);
  }

  lemma NoNames(s: Session)
    ensures Names(s, [])
  {
  }

  lemma DecideLife(cfg: Config, strategy: Strategy, s: Session, e: Event)
    requires Alive(cfg, s) && s.halt == None && s.feed.lastSeq == Some(e.seqNo)
    ensures var t := Decide(cfg, strategy, s, e);
            Alive(cfg, t) && Progress(s, t) && t.feed == s.feed
  {
    hide Life, QueueOk, Progress, SubmitAll, Record;
    var t := Decide(cfg, strategy, s, e);
    match strategy(s.shown)
    case Raises => LifeFrame(cfg, s, t);
    case Decision(signal, orders) =>
      LifeAfterSubmitAll(cfg, s, e, signal, orders);
      var u := SubmitAll(cfg, s, e, signal, orders);
      LifeFrame(cfg, u, t);
      LifeStatuses(cfg, s);
      ProgressTransitive(s, u, t);
  }

  lemma ObservedLife(cfg: Config, s: Session, e: Event)
    requires Alive(cfg, s)
    ensures Alive(cfg, Observed(s, e)) && Progress(s, Observed(s, e)) && Observed(s, e).feed == s.feed
    ensures Observed(s, e).halt == s.halt
  {
    hide Life, QueueOk, Progress;
    LifeFrame(cfg, s, Observed(s, e));
  }

  // The three ends of an event: at validation, at the queue walk, after the decision.
  lemma EventShape(cfg: Config, strategy: Strategy, s: Session, e: Event)
    requires Running(s) && Names(s, s.pending)
    ensures var s1, t := Admit(cfg, s, e), ProcessEvent(cfg, strategy, s, e);
            && t == Obey(cfg, strategy, s, Tick(e)) && Names(s1, s1.pending)
            && (s1.halt.Some? ==> t == s1)
            && (s1.halt == None ==>
                  var s2 := ExecutePending(cfg, s1, e);
                  t == if s2.halt.Some? then s2 else Decide(cfg, strategy, Observed(s2, e), e))
  {
    hide ExecutePending, Decide, Observed, Issues;
  }

  lemma EventLife(cfg: Config, strategy: Strategy, s: Session, e: Event)
    requires ValidConfig(cfg) && Alive(cfg, s)
    ensures Alive(cfg, ProcessEvent(cfg, strategy, s, e)) && Progress(s, ProcessEvent(cfg, strategy, s, e))
  {
    hide Life, QueueOk, Progress, Admit, ExecutePending, Decide, Observed, ValidConfig;
    ProgressRefl(s);
    LifeStatuses(cfg, s);
    if Running(s) {
      AdmitLife(cfg, s, e);
      var s1 := Admit(cfg, s, e);
      if s1.halt == None {
        PendingLife(cfg, s1, e);
        var s2 := ExecutePending(cfg, s1, e);
        LifeStatuses(cfg, s1);
        LifeStatuses(cfg, s2);
        ProgressTransitive(s, s1, s2);
        if s2.halt == None {
          ObservedLife(cfg, s2, e);
          var s3 := Observed(s2, e);
          DecideLife(cfg, strategy, s3, e);
          ProgressTransitive(s2, s3, Decide(cfg, strategy, s3, e));
          ProgressTransitive(s, s2, Decide(cfg, strategy, s3, e));
        }
      }
    }
  }

  lemma ObeyLife(cfg: Config, strategy: Strategy, s: Session, c: Command)
    requires ValidConfig(cfg) && Alive(cfg, s)
    ensures Alive(cfg, Obey(cfg, strategy, s, c)) && Progress(s, Obey(cfg, strategy, s, c))
  {
    hide Life, QueueOk, Progress, ProcessEvent, ValidConfig;
    match c
    case Tick(e) => EventLife(cfg, strategy, s, e);
    case _ => LifeFrame(cfg, s, Obey(cfg, strategy, s, c));
  }

  // From any such state, every run keeps the lifecycle and moves intents only along the table; terminal intents
  // are never touched again.
  lemma {:induction false} RunLife(cfg: Config, strategy: Strategy, s: Session, cs: seq<Command>)
    requires ValidConfig(cfg) && Alive(cfg, s)
    ensures Alive(cfg, Run(cfg, strategy, s, cs)) && Progress(s, Run(cfg, strategy, s, cs))
    decreases |cs|
  {
    hide Alive, Progress, Obey, ValidConfig;
    assert Names(s, s.pending) by { AliveNames(cfg, s); }
    ProgressRefl(s);
    if cs != [] {
      ObeyLife(cfg, strategy, s, cs[0]);
      var t := Obey(cfg, strategy, s, cs[0]);
      RunLife(cfg, strategy, t, cs[1..]);
      AliveStatuses(cfg, s);
      ProgressTransitive(s, t, Run(cfg, strategy, t, cs[1..]));
    }
  }

  lemma AliveNames(cfg: Config, s: Session)
    requires Alive(cfg, s)
    ensures Names(s, s.pending)
  {
  }

  lemma AliveStatuses(cfg: Config, s: Session)
    requires Alive(cfg, s)
    ensures forall i :: 0 <= i < |s.intents| ==>
              s.intents[i].status in {Rejected, Accepted, PartiallyFilled, Filled}
  {
    LifeStatuses(cfg, s);
  }

  lemma OpenedAlive(cfg: Config)
    ensures Alive(cfg, Opened(cfg))
  {
  }

  // Every run of a paper session that fills orders whole: no illegal transition is attempted, each intent's filled
  // quantity is the sum of its fills, each intent is filled at most once, in full, at its scheduled event, and a
  // filled intent has exactly that one fill.
  lemma {:induction false} LifecycleOverRuns(cfg: Config, strategy: Strategy, cs: seq<Command>)
    requires ValidConfig(cfg) && FillsWhole(cfg)
    ensures var s := Run(cfg, strategy, Opened(cfg), cs);
            && s.halt != Some(Exception(IllegalTransition))
            && |s.notes| == |s.fills|
            && (forall k: nat :: k < |s.intents| ==>
                  && s.intents[k].filled == FilledSum(s.notes, s.fills, k)
                  && s.intents[k].filled ==
                     (if s.intents[k].status == Filled then s.intents[k].order.quantity else 0.0))
            && (forall j :: 0 <= j < |s.notes| ==>
                  && s.notes[j].intent < |s.intents|
                  && s.intents[s.notes[j].intent].status == Filled
                  && s.intents[s.notes[j].intent].scheduled == Some(s.notes[j].eventSeq)
                  && s.intents[s.notes[j].intent].id.IntentId?
                  && s.intents[s.notes[j].intent].id.eventSeq + 1 == s.notes[j].eventSeq)
            && (forall j, l :: 0 <= j < l < |s.notes| ==> s.notes[j].intent != s.notes[l].intent)
  {
    var whole := AtOnce(cfg);
    SameRun(cfg, strategy, Opened(cfg), cs);
    OpenedAlive(whole);
    RunLife(whole, strategy, Opened(whole), cs);
    hide Run, Opened, FilledSum, VenueOk;
  }
}
