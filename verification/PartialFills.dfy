// Partial fills end: the remainder shrinks geometrically, and on consecutive events an order the venue never refuses
// is complete within a bounded number of bars.

module PartialFills {
  import opened Trading
  import opened Ledger
  import opened PaperOrders
  import opened PaperExecution
  import opened PaperBooks
  import opened PaperSessions
  import opened PaperAttempts
  import opened PaperLifecycle
  import opened PaperMoney
  import opened PaperTiming

  function Pow(x: real, n: nat): real {
    if n == 0 then 1.0 else x * Pow(x, n - 1)
  }

  // (1 - r)^n (1 + n r) <= 1
  lemma {:induction false} GeometricBelowHyperbola(r: real, n: nat)
    requires 0.0 < r <= 1.0
    ensures 0.0 <= Pow(1.0 - r, n)
    ensures Pow(1.0 - r, n) * (1.0 + n as real * r) <= 1.0
  {
    if n > 0 {
      GeometricBelowHyperbola(r, n - 1);
      var p, m := Pow(1.0 - r, n - 1), (n - 1) as real;
      BernoulliStep(r, m, p);
      assert n as real == m + 1.0;
    }
  }

  lemma BernoulliStep(r: real, m: real, p: real)
    requires 0.0 < r <= 1.0 && m >= 0.0 && p >= 0.0 && p * (1.0 + m * r) <= 1.0
    ensures 0.0 <= (1.0 - r) * p
    ensures ((1.0 - r) * p) * (1.0 + (m + 1.0) * r) <= 1.0
  {
    var a := (1.0 - r) * (1.0 + (m + 1.0) * r);
    var b := 1.0 + m * r;
    assert a == b - r * r * (m + 1.0);
    assert r * r * (m + 1.0) >= 0.0;
    assert ((1.0 - r) * p) * (1.0 + (m + 1.0) * r) == p * a;
    assert p * a <= p * b;
  }

  // One more fill, if the intent is still open.
  function Filling(cfg: ExecConfig, i: Intent): Intent {
    if Open(i) then AfterFillOf(i, NextQuantity(cfg, i)) else i
  }

  // The intent after n consecutive fills.
  function AfterFills(cfg: ExecConfig, i: Intent, n: nat): Intent {
    if n == 0 then i else Filling(cfg, AfterFills(cfg, i, n - 1))
  }

  // What one fill of the ratio leaves.
  function Kept(remaining: real, ratio: real): real {
    remaining * (1.0 - ratio)
  }

  lemma FillingShape(cfg: ExecConfig, i: Intent)
    requires WellFormed(cfg, i) && i.status != Rejected && 0.0 < cfg.ratio <= 1.0
    ensures var j := Filling(cfg, i);
            && WellFormed(cfg, j) && j.order == i.order && j.status in {PartiallyFilled, Filled}
            && (j.status == PartiallyFilled ==> Open(i) && Remaining(j) == Kept(Remaining(i), cfg.ratio))
  {
    if Open(i) {
      OpenRemains(cfg, i);
      FillQuantityBounds(Remaining(i), cfg.policy, cfg.ratio);
      var q := NextQuantity(cfg, i);
      var j := Filling(cfg, i);
      if j.status == PartiallyFilled {
        assert cfg.policy == AllowPartial && q == Remaining(i) * cfg.ratio;
        assert Remaining(i) * (1.0 - cfg.ratio) == Remaining(i) - Remaining(i) * cfg.ratio;
        assert Remaining(j) == Remaining(i) - q;
      }
    }
  }

  // What a geometric series of fills leaves of a quantity.
  function GeometricRest(quantity: real, ratio: real, n: nat): real {
    quantity * Pow(1.0 - ratio, n)
  }

  predicate UnderHyperbola(rest: real, quantity: real, ratio: real, n: nat) {
    rest * (1.0 + n as real * ratio) <= quantity
  }

  // This many fills always complete the order.
  predicate EnoughFills(quantity: real, ratio: real, n: nat) {
    n as real * ratio * EPS9 >= quantity
  }

  lemma {:induction false} RemainderExact(cfg: ExecConfig, i: Intent, n: nat)
    requires WellFormed(cfg, i) && i.status == Accepted && 0.0 < cfg.ratio <= 1.0
    ensures var j := AfterFills(cfg, i, n);
            && WellFormed(cfg, j) && j.order == i.order
            && (if n == 0 then j.status == Accepted else j.status == PartiallyFilled || j.status == Filled)
            && (Open(j) ==> Remaining(j) == GeometricRest(i.order.quantity, cfg.ratio, n))
  {
    hide GeometricRest, Kept;
    if n == 0 {
      RestStart(i.order.quantity, cfg.ratio);
    } else {
      var h := AfterFills(cfg, i, n - 1);
      RemainderExact(cfg, i, n - 1);
      FillingShape(cfg, h);
      var j := AfterFills(cfg, i, n);
      RestStep(i.order.quantity, cfg.ratio, n);
      hide Filling, WellFormed, Remaining;
    }
  }

  lemma RestStart(q: real, r: real)
    ensures GeometricRest(q, r, 0) == q
  {
  }

  lemma RestStep(q: real, r: real, n: nat)
    requires n > 0
    ensures GeometricRest(q, r, n) == Kept(GeometricRest(q, r, n - 1), r)
  {
    assert q * ((1.0 - r) * Pow(1.0 - r, n - 1)) == (q * Pow(1.0 - r, n - 1)) * (1.0 - r);
  }

  lemma RestUnderHyperbola(q: real, r: real, n: nat)
    requires q > 0.0 && 0.0 < r <= 1.0
    ensures UnderHyperbola(GeometricRest(q, r, n), q, r, n)
  {
    GeometricBelowHyperbola(r, n);
    var p, d := Pow(1.0 - r, n), 1.0 + n as real * r;
    hide Pow;
    ScaledBound(q, p, d);
  }

  lemma ScaledBound(q: real, p: real, d: real)
    requires q > 0.0 && p * d <= 1.0
    ensures (q * p) * d <= q
  {
    assert (q * p) * d == q * (p * d);
    assert q * (p * d) <= q * 1.0;
  }

  lemma NotEnoughYet(rest: real, q: real, r: real, n: nat)
    requires rest > EPS9 && n > 0 && r > 0.0 && UnderHyperbola(rest, q, r, n)
    ensures !EnoughFills(q, r, n)
  {
    var m := n as real * r;
    assert m > 0.0;
    assert rest * m > EPS9 * m;
    assert rest * (1.0 + m) == rest + rest * m;
  }

  // After n fills the intent is still open only with exactly quantity * (1 - ratio)^n left, at most
  // quantity / (1 + n * ratio); it never fills more than its quantity; and it is filled as soon as
  // n * ratio * 1e-9 reaches the quantity.
  lemma {:induction false} PartialFillsShrink(cfg: ExecConfig, i: Intent, n: nat)
    requires WellFormed(cfg, i) && i.status == Accepted && 0.0 < cfg.ratio <= 1.0
    ensures var j := AfterFills(cfg, i, n);
            && 0.0 <= j.filled <= i.order.quantity
            && (Open(j) ==>
                  && Remaining(j) == GeometricRest(i.order.quantity, cfg.ratio, n)
                  && UnderHyperbola(Remaining(j), i.order.quantity, cfg.ratio, n))
            && (n > 0 && EnoughFills(i.order.quantity, cfg.ratio, n) ==> j.status == Filled)
  {
    var j := AfterFills(cfg, i, n);
    RemainderExact(cfg, i, n);
    assert 0.0 <= j.filled <= i.order.quantity && i.order.quantity > 0.0;
    assert Open(j) && n > 0 ==> Remaining(j) > EPS9;
    hide AfterFills, WellFormed, Remaining, GeometricRest, UnderHyperbola, EnoughFills;
    RestUnderHyperbola(i.order.quantity, cfg.ratio, n);
    if Open(j) && n > 0 {
      NotEnoughYet(Remaining(j), i.order.quantity, cfg.ratio, n);
    }
  }

  // ---- at the session: a queued order on consecutive events

  predicate Alike(i: Intent, j: Intent) {
    i.status == j.status && i.filled == j.filled && i.order == j.order
  }

  // One due attempt rejected the intent, or filled it once more and requeued any remainder for the next event.
  predicate Touched(cfg: ExecConfig, i: Intent, i': Intent, e: Event) {
    i'.status == Rejected
    || (Alike(i', Filling(cfg, i)) && (i'.status == PartiallyFilled ==> i'.scheduled == Some(e.seqNo + 1)))
  }

  lemma OneTouches(cfg: Config, s: Session, e: Event, k: nat)
    requires ValidConfig(cfg) && Life(cfg, s) && s.halt == None && k < |s.intents| && Open(s.intents[k])
    ensures ExecuteOne(cfg, s, e, k).halt == None ==>
              Touched(cfg.exec, s.intents[k], ExecuteOne(cfg, s, e, k).intents[k], e)
  {
    IntentWellFormed(cfg, s, k);
    assert VenueOk(s.venue);
    var i := s.intents[k];
    Attempted(cfg.exec, s.venue, i, e.bar.timestamp, e.bar.open, s.book.book.cash,
              Quantity(s.book.book, e.bar.symbol), Closed(cfg, e));
    ProposedShape(cfg.exec, s.venue.fillSeq + 1, i, NextQuantity(cfg.exec, i), e.bar.timestamp, e.bar.open);
    ExecuteOneShape(cfg, s, e, k);
    var a := AttemptAt(cfg, s, e, k);
    assert a.outcome.FilledWith? ==> a.intent == Filling(cfg.exec, i);
    assert a.outcome.Dropped? ==> a.intent.status == Rejected;
    hide ExecuteOne, AttemptAt, ExecuteAtOpen, Life, WellFormed, NextQuantity, Filling, Against, ProposedFill;
  }

  lemma {:induction false} QueueLeaves(cfg: Config, s: Session, e: Event, todo: seq<nat>, still: seq<nat>, k: nat)
    requires Names(s, todo) && Names(s, still) && k < |s.intents| && k !in todo
    ensures ExecuteQueue(cfg, s, e, todo, still).0.intents[k] == s.intents[k]
    ensures k in still ==> k in ExecuteQueue(cfg, s, e, todo, still).1
    decreases |todo|
  {
    hide Due;
    if todo != [] && s.halt == None {
      var n := todo[0];
      assert n in todo && forall m :: m in todo[1..] ==> m in todo;
      if !Due(s.intents[n], e) {
        QueueLeaves(cfg, s, e, todo[1..], still + [n], k);
      } else {
        var s' := ExecuteOne(cfg, s, e, n);
        assert s'.intents[k] == s.intents[k] by { OneLeaves(cfg, s, e, n, k); }
        hide ExecuteOne;
        QueueLeaves(cfg, s', e, todo[1..], if s'.intents[n].status == PartiallyFilled then still + [n] else still, k);
      }
    }
  }

  lemma OneLeaves(cfg: Config, s: Session, e: Event, n: nat, k: nat)
    requires n < |s.intents| && k < |s.intents| && n != k
    ensures ExecuteOne(cfg, s, e, n).intents[k] == s.intents[k]
  {
    hide AttemptAt, Applied, CannotApply;
  }

  lemma {:induction false} QueueTouches(cfg: Config, s: Session, e: Event, todo: seq<nat>, still: seq<nat>, k: nat)
    requires ValidConfig(cfg) && Life(cfg, s) && s.feed.lastSeq == Some(e.seqNo)
    requires Names(s, todo) && Names(s, still) && s.halt == None && QueueOk(s, still + todo)
    requires k in todo && k < |s.intents| && Due(s.intents[k], e)
    ensures var r := ExecuteQueue(cfg, s, e, todo, still);
            r.0.halt == None ==>
              Touched(cfg.exec, s.intents[k], r.0.intents[k], e)
              && (r.0.intents[k].status == PartiallyFilled ==> k in r.1)
    decreases |todo|
  {
    hide ExecuteOne, Due, ValidConfig, Life, Touched, Filling;
    var n := todo[0];
    assert (still + todo)[|still|] == n;
    assert still + todo == (still + [n]) + todo[1..];
    if n == k {
      OneTouches(cfg, s, e, k);
      assert k !in todo[1..] by { NotTwice(s, todo, still, k); }
      var s' := ExecuteOne(cfg, s, e, k);
      QueueLeaves(cfg, s', e, todo[1..], if s'.intents[k].status == PartiallyFilled then still + [k] else still, k);
      if s'.halt.Some? {
        QueueStops(cfg, s', e, todo[1..], if s'.intents[k].status == PartiallyFilled then still + [k] else still);
      }
    } else if !Due(s.intents[n], e) {
      QueueTouches(cfg, s, e, todo[1..], still + [n], k);
    } else {
      LifeAfterOne(cfg, s, e, n);
      MovedAfterOne(cfg, s, e, n);
      var s' := ExecuteOne(cfg, s, e, n);
      if s'.halt == None {
        QueueAfterOne(s, s', todo, still, n);
        QueueTouches(cfg, s', e, todo[1..], if s'.intents[n].status == PartiallyFilled then still + [n] else still, k);
      }
    }
  }

  lemma NotTwice(s: Session, todo: seq<nat>, still: seq<nat>, k: nat)
    requires QueueOk(s, still + todo) && todo != [] && todo[0] == k
    ensures k !in todo[1..]
  {
    var all := still + todo;
    forall j | 0 <= j < |todo[1..]|
      ensures todo[1..][j] != k
    {
      assert all[|still|] == k && all[|still| + 1 + j] == todo[1..][j];
    }
  }

  // After m events since i0 was accepted: rejected, or exactly m fills in, and any remainder queued for the next event.
  ghost predicate Tracks(cfg: Config, s: Session, k: nat, i0: Intent, m: nat) {
    && k < |s.intents|
    && (s.intents[k].status == Rejected
        || (&& Alike(s.intents[k], AfterFills(cfg.exec, i0, m))
            && (Open(s.intents[k]) ==>
                  k in s.pending && s.feed.lastSeq.Some?
                  && s.intents[k].scheduled == Some(s.feed.lastSeq.value + 1))))
  }

  lemma FillingAlike(cfg: ExecConfig, i: Intent, j: Intent)
    requires Alike(i, j)
    ensures Alike(Filling(cfg, i), Filling(cfg, j))
  {
    hide FillQuantity;
  }

  // What the walk did to one due intent.
  lemma PendingTouches(cfg: Config, s: Session, e: Event, k: nat)
    requires ValidConfig(cfg) && Alive(cfg, s) && s.halt == None && s.feed.lastSeq == Some(e.seqNo)
    requires k < |s.intents| && Open(s.intents[k]) && k in s.pending && Due(s.intents[k], e)
    ensures var t := ExecutePending(cfg, s, e);
            t.halt == None ==>
              && k < |t.intents| && t.feed == s.feed && Touched(cfg.exec, s.intents[k], t.intents[k], e)
              && (t.intents[k].status == PartiallyFilled ==> k in t.pending)
  {
    NoNames(s);
    assert [] + s.pending == s.pending;
    QueueTouches(cfg, s, e, s.pending, [], k);
    PendingWalked(cfg, s, e);
    hide ExecuteQueue, Touched, Life, ValidConfig, QueueOk, Due;
  }

  lemma PendingTracks(cfg: Config, s: Session, e: Event, k: nat, i0: Intent, m: nat)
    requires ValidConfig(cfg) && Alive(cfg, s) && s.halt == None && s.feed.lastSeq == Some(e.seqNo)
    requires k < |s.intents| && Alike(s.intents[k], AfterFills(cfg.exec, i0, m))
    requires Open(s.intents[k]) && k in s.pending && Due(s.intents[k], e)
    ensures var t := ExecutePending(cfg, s, e);
            t.halt == None ==> Tracks(cfg, t, k, i0, m + 1)
  {
    PendingTouches(cfg, s, e, k);
    FillingAlike(cfg.exec, s.intents[k], AfterFills(cfg.exec, i0, m));
    assert AfterFills(cfg.exec, i0, m + 1) == Filling(cfg.exec, AfterFills(cfg.exec, i0, m));
    FillingOpen(cfg.exec, s.intents[k]);
    hide ExecutePending, ValidConfig, Alive, AfterFills, Filling, Due;
  }

  lemma FillingOpen(cfg: ExecConfig, i: Intent)
    ensures Open(i) ==> Filling(cfg, i).status in {PartiallyFilled, Filled}
  {
  }

  lemma TracksFrame(cfg: Config, s: Session, t: Session, k: nat, i0: Intent, m: nat)
    requires Tracks(cfg, s, k, i0, m)
    requires s.intents <= t.intents && s.pending <= t.pending && t.feed == s.feed
    ensures Tracks(cfg, t, k, i0, m)
  {
    hide AfterFills;
  }

  lemma DecideTracks(cfg: Config, strategy: Strategy, s: Session, e: Event, k: nat, i0: Intent, m: nat)
    requires Names(s, s.pending) && Tracks(cfg, s, k, i0, m)
    ensures Tracks(cfg, Decide(cfg, strategy, s, e), k, i0, m)
  {
    match strategy(s.shown)
    case Raises =>
      hide AfterFills;
    case Decision(signal, orders) =>
      SubmitAllFrame(cfg, s, e, signal, orders);
      TracksFrame(cfg, s, SubmitAll(cfg, s, e, signal, orders), k, i0, m);
      hide SubmitAll, Record, AfterFills;
  }

  lemma TerminalTracks(cfg: Config, s: Session, t: Session, k: nat, i0: Intent, m: nat)
    requires Alive(cfg, s) && Progress(s, t) && Tracks(cfg, s, k, i0, m) && !Open(s.intents[k])
    ensures Tracks(cfg, t, k, i0, m + 1)
  {
    AliveStatuses(cfg, s);
    hide Alive;
    assert t.intents[k] == s.intents[k];
    hide NextQuantity;
  }

  lemma EventTracks(cfg: Config, strategy: Strategy, s: Session, e: Event, k: nat, i0: Intent, m: nat)
    requires ValidConfig(cfg) && Alive(cfg, s) && Running(s) && Tracks(cfg, s, k, i0, m)
    requires s.feed.lastSeq.Some? && e.seqNo == s.feed.lastSeq.value + 1
    requires e.bar.symbol == s.intents[k].order.symbol
    ensures ProcessEvent(cfg, strategy, s, e).halt == None ==>
              Tracks(cfg, ProcessEvent(cfg, strategy, s, e), k, i0, m + 1)
  {
    EventLife(cfg, strategy, s, e);
    AliveNames(cfg, s);
    if Open(s.intents[k]) {
      OpenTracks(cfg, strategy, s, e, k, i0, m);
    } else {
      hide ProcessEvent, Alive, Progress;
      TerminalTracks(cfg, s, ProcessEvent(cfg, strategy, s, e), k, i0, m);
    }
  }

  // The order is due once its event is admitted.
  lemma OpenAdmitted(cfg: Config, s: Session, e: Event, k: nat, i0: Intent, m: nat)
    requires s.halt == None && Tracks(cfg, s, k, i0, m) && Open(s.intents[k])
    requires s.feed.lastSeq.Some? && e.seqNo == s.feed.lastSeq.value + 1 && e.bar.symbol == s.intents[k].order.symbol
    ensures var s1 := Admit(cfg, s, e);
            && k < |s1.intents| && Alike(s1.intents[k], AfterFills(cfg.exec, i0, m)) && Open(s1.intents[k])
            && k in s1.pending && Due(s1.intents[k], e)
            && (s1.halt == None ==> s1.feed.lastSeq == Some(e.seqNo))
  {
    AdmitShape(cfg, s, e);
    hide Admit, AfterFills, Alike;
  }

  lemma OpenTracks(cfg: Config, strategy: Strategy, s: Session, e: Event, k: nat, i0: Intent, m: nat)
    requires ValidConfig(cfg) && Alive(cfg, s) && Running(s) && Tracks(cfg, s, k, i0, m) && Open(s.intents[k])
    requires s.feed.lastSeq.Some? && e.seqNo == s.feed.lastSeq.value + 1
    requires e.bar.symbol == s.intents[k].order.symbol && Names(s, s.pending)
    ensures ProcessEvent(cfg, strategy, s, e).halt == None ==>
              Tracks(cfg, ProcessEvent(cfg, strategy, s, e), k, i0, m + 1)
  {
    assert s.halt == None;
    hide *;
    AdmitLife(cfg, s, e);
    OpenAdmitted(cfg, s, e, k, i0, m);
    EventShape(cfg, strategy, s, e);
    var s1 := Admit(cfg, s, e);
    if s1.halt == None {
      PendingTracks(cfg, s1, e, k, i0, m);
      var s2 := ExecutePending(cfg, s1, e);
      if s2.halt == None {
        ObservedShape(s2, e);
        TracksFrame(cfg, s2, Observed(s2, e), k, i0, m + 1);
        DecideTracks(cfg, strategy, Observed(s2, e), e, k, i0, m + 1);
      }
    }
  }

  lemma ObservedShape(s: Session, e: Event)
    ensures var t := Observed(s, e);
            && t.intents == s.intents && t.pending == s.pending && t.feed == s.feed && t.halt == s.halt
            && (Names(s, s.pending) ==> Names(t, t.pending))
  {
  }

  // From a state with lastSeq = last, the events number last + 1, last + 2, ... on one symbol.
  predicate Consecutive(es: seq<Event>, last: int, symbol: string) {
    forall i :: 0 <= i < |es| ==> es[i].seqNo == last + 1 + i && es[i].bar.symbol == symbol
  }

  ghost function Replay(cfg: Config, strategy: Strategy, s: Session, es: seq<Event>): (r: Session)
    requires Names(s, s.pending)
    ensures Names(r, r.pending)
    decreases |es|
  {
    if es == [] then s else Replay(cfg, strategy, ProcessEvent(cfg, strategy, s, es[0]), es[1..])
  }

  lemma {:induction false} HaltedStays(cfg: Config, strategy: Strategy, s: Session, es: seq<Event>)
    requires Names(s, s.pending) && !Running(s)
    ensures Replay(cfg, strategy, s, es) == s
    decreases |es|
  {
    if es != [] {
      HaltedStays(cfg, strategy, s, es[1..]);
    }
  }

  lemma {:induction false} ReplayTracks(cfg: Config, strategy: Strategy, s: Session, es: seq<Event>, k: nat, i0: Intent,
                                        m: nat, last: int)
    requires ValidConfig(cfg) && Alive(cfg, s) && Running(s) && k < |s.intents| && Tracks(cfg, s, k, i0, m)
    requires s.feed.lastSeq == Some(last) && Consecutive(es, last, s.intents[k].order.symbol)
    requires Names(s, s.pending)
    ensures Replay(cfg, strategy, s, es).halt == None ==>
              Tracks(cfg, Replay(cfg, strategy, s, es), k, i0, m + |es|)
    decreases |es|
  {
    hide *;
    ReplayUnfold(cfg, strategy, s, es);
    if es != [] {
      ConsecutiveSplit(es, last, s.intents[k].order.symbol);
      NextTracks(cfg, strategy, s, es[0], k, i0, m);
      var t := ProcessEvent(cfg, strategy, s, es[0]);
      if t.halt == None {
        ReplayTracks(cfg, strategy, t, es[1..], k, i0, m + 1, last + 1);
      } else {
        HaltedStays(cfg, strategy, t, es[1..]);
      }
    }
  }

  lemma ReplayUnfold(cfg: Config, strategy: Strategy, s: Session, es: seq<Event>)
    requires Names(s, s.pending)
    ensures Replay(cfg, strategy, s, es) ==
            if es == [] then s else Replay(cfg, strategy, ProcessEvent(cfg, strategy, s, es[0]), es[1..])
  {
    hide ProcessEvent;
  }

  lemma ConsecutiveSplit(es: seq<Event>, last: int, symbol: string)
    requires Consecutive(es, last, symbol) && es != []
    ensures es[0].seqNo == last + 1 && es[0].bar.symbol == symbol && Consecutive(es[1..], last + 1, symbol)
  {
  }

  lemma NextTracks(cfg: Config, strategy: Strategy, s: Session, e: Event, k: nat, i0: Intent, m: nat)
    requires ValidConfig(cfg) && Alive(cfg, s) && Running(s) && Tracks(cfg, s, k, i0, m) && Names(s, s.pending)
    requires s.feed.lastSeq.Some? && e.seqNo == s.feed.lastSeq.value + 1
    requires e.bar.symbol == s.intents[k].order.symbol
    ensures var t := ProcessEvent(cfg, strategy, s, e);
            && Alive(cfg, t) && k < |t.intents| && t.intents[k].order == s.intents[k].order
            && (t.halt == None ==> Running(t) && Tracks(cfg, t, k, i0, m + 1) && t.feed.lastSeq == Some(e.seqNo))
            && (t.halt.Some? ==> !Running(t))
  {
    assert k < |s.intents|;
    EventTracks(cfg, strategy, s, e, k, i0, m);
    EventLife(cfg, strategy, s, e);
    EventRuns(cfg, strategy, s, e);
    SameOrder(s, ProcessEvent(cfg, strategy, s, e), k);
    hide Alive, ProcessEvent, Tracks, ValidConfig, Progress;
  }

  lemma SameOrder(s: Session, t: Session, k: nat)
    requires Progress(s, t) && k < |s.intents|
    ensures k < |t.intents| && t.intents[k].order == s.intents[k].order
  {
  }

  lemma EventRuns(cfg: Config, strategy: Strategy, s: Session, e: Event)
    requires Names(s, s.pending) && Running(s)
    ensures var t := ProcessEvent(cfg, strategy, s, e);
            t.halt == None ==> Running(t) && t.feed.lastSeq == Some(e.seqNo)
  {
    AdmitShape(cfg, s, e);
    var s1 := Admit(cfg, s, e);
    if s1.halt == None {
      PendingWalked(cfg, s1, e);
      var s2 := ExecutePending(cfg, s1, e);
      hide Admit, ExecutePending;
      if s2.halt == None {
        var s3 := Observed(s2, e);
        match strategy(s3.shown)
        case Raises =>
        case Decision(signal, orders) =>
          SubmitAllFrame(cfg, s3, e, signal, orders);
          hide SubmitAll, Record;
      }
    }
  }

  // A just accepted order on one symbol: on the next n consecutive events of that symbol, unless the session halts,
  // it is rejected (at its first attempt) or has exactly n fills, the last possible one completing it; and once
  // n * ratio * 1e-9 reaches its quantity it is no longer open.
  lemma {:induction false} PartialOrderCompletes(cfg: Config, strategy: Strategy, s: Session, es: seq<Event>, k: nat)
    requires ValidConfig(cfg) && Alive(cfg, s) && Running(s) && Names(s, s.pending)
    requires k in s.pending && k < |s.intents| && s.intents[k].status == Accepted && s.feed.lastSeq.Some?
    requires s.intents[k].scheduled == Some(s.feed.lastSeq.value + 1)
    requires Consecutive(es, s.feed.lastSeq.value, s.intents[k].order.symbol)
    ensures var t := Replay(cfg, strategy, s, es);
            var i := s.intents[k];
            t.halt == None ==>
              && k < |t.intents|
              && (t.intents[k].status == Rejected || Alike(t.intents[k], AfterFills(cfg.exec, i, |es|)))
              && (es != [] && EnoughFills(i.order.quantity, cfg.exec.ratio, |es|) ==>
                    t.intents[k].status == Rejected || t.intents[k].status == Filled)
  {
    var i := s.intents[k];
    assert AfterFills(cfg.exec, i, 0) == i;
    assert Tracks(cfg, s, k, i, 0);
    AliveIntent(cfg, s, k);
    hide Replay, Alive, EnoughFills, AfterFills, GeometricRest, UnderHyperbola;
    ReplayTracks(cfg, strategy, s, es, k, i, 0, s.feed.lastSeq.value);
    PartialFillsShrink(cfg.exec, i, |es|);
    hide Replay, Alive, WellFormed, EnoughFills, AfterFills, GeometricRest, UnderHyperbola;
  }

  lemma AliveIntent(cfg: Config, s: Session, k: nat)
    requires Alive(cfg, s) && k < |s.intents|
    ensures WellFormed(cfg.exec, s.intents[k])
  {
    IntentWellFormed(cfg, s, k);
  }
}
