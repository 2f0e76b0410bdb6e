// A session that may fill partially but with ratio 1, the default of paper/fills.py, is the all-or-nothing session.

module WholeFills {
  import opened Trading
  import opened Ledger
  import opened PaperOrders
  import opened PaperExecution
  import opened PaperBooks
  import opened PaperSessions

  predicate FillsWhole(cfg: Config) {
    cfg.exec.policy == AllOrNothing || cfg.exec.ratio == 1.0
  }

  function AtOnce(cfg: Config): Config {
    cfg.(exec := cfg.exec.(policy := AllOrNothing))
  }

  lemma WholeQuantity(remaining: real, policy: Policy)
    ensures FillQuantity(remaining, policy, 1.0) == FillQuantity(remaining, AllOrNothing, 1.0)
  {
  }

  // On every intent and venue, open or not: a whole fill leaves nothing, so both policies settle it alike.
  lemma SameAttempt(cfg: ExecConfig, v: Venue, i: Intent, at: int, open: real, cash: real, position: real,
                    closed: bool, stale: bool)
    requires cfg.ratio == 1.0
    ensures ExecuteAtOpen(cfg, v, i, at, open, cash, position, closed, stale) ==
            ExecuteAtOpen(cfg.(policy := AllOrNothing), v, i, at, open, cash, position, closed, stale)
  {
    var whole := cfg.(policy := AllOrNothing);
    var q := FillQuantity(Remaining(i), AllOrNothing, cfg.ratio);
    WholeQuantity(Remaining(i), cfg.policy);
    assert q > 0.0 ==> Remaining(i.(filled := i.filled + q)) == 0.0;
    hide FillQuantity;
    assert Obstacle(cfg, i, q, open, cash, position, closed, stale) ==
           Obstacle(whole, i, q, open, cash, position, closed, stale);
    assert Obstacle(cfg, i, q, open, cash, position, closed, stale) == None ==> q > 0.0;
    var f := ProposedFill(cfg, v.fillSeq + 1, i, q, at, open);
    assert f == ProposedFill(whole, v.fillSeq + 1, i, q, at, open) && f.quantity == q;
    hide Obstacle, ProposedFill, ValidFill, Remaining;
  }

  lemma SameOne(cfg: Config, s: Session, e: Event, k: nat)
    requires FillsWhole(cfg) && k < |s.intents|
    ensures ExecuteOne(cfg, s, e, k) == ExecuteOne(AtOnce(cfg), s, e, k)
  {
    if cfg.exec.policy != AllOrNothing {
      SameAttempt(cfg.exec, s.venue, s.intents[k], e.bar.timestamp, e.bar.open, s.book.book.cash,
                  Quantity(s.book.book, e.bar.symbol), Closed(cfg, e), false);
    }
    hide ExecuteAtOpen, Applied, CannotApply, Quantity;
  }

  lemma {:induction false} SameQueue(cfg: Config, s: Session, e: Event, todo: seq<nat>, still: seq<nat>)
    requires FillsWhole(cfg) && Names(s, todo) && Names(s, still)
    ensures ExecuteQueue(cfg, s, e, todo, still) == ExecuteQueue(AtOnce(cfg), s, e, todo, still)
    decreases |todo|
  {
    hide ExecuteOne, Due, FillsWhole, AtOnce;
    if todo != [] && s.halt == None {
      var k := todo[0];
      if !Due(s.intents[k], e) {
        SameQueue(cfg, s, e, todo[1..], still + [k]);
      } else {
        SameOne(cfg, s, e, k);
        var s' := ExecuteOne(cfg, s, e, k);
        SameQueue(cfg, s', e, todo[1..], if s'.intents[k].status == PartiallyFilled then still + [k] else still);
      }
    }
  }

  lemma {:induction false} SameSubmits(cfg: Config, s: Session, e: Event, signal: Signal, orders: seq<Order>)
    requires Names(s, s.pending)
    ensures SubmitAll(cfg, s, e, signal, orders) == SubmitAll(AtOnce(cfg), s, e, signal, orders)
    decreases |orders|
  {
    if orders != [] {
      assert Submit(cfg, s, e, signal, orders[0]) == Submit(AtOnce(cfg), s, e, signal, orders[0]);
      hide Submit;
      SameSubmits(cfg, Submit(cfg, s, e, signal, orders[0]), e, signal, orders[1..]);
    }
  }

  lemma SameEvent(cfg: Config, strategy: Strategy, s: Session, e: Event)
    requires FillsWhole(cfg) && Names(s, s.pending)
    ensures ProcessEvent(cfg, strategy, s, e) == ProcessEvent(AtOnce(cfg), strategy, s, e)
  {
    if Running(s) {
      var s1 := Admit(cfg, s, e);
      assert s1 == Admit(AtOnce(cfg), s, e);
      hide Admit, ExecuteQueue, SubmitAll, Observed, Record;
      if s1.halt == None {
        SameQueue(cfg, s1, e, s1.pending, []);
        var s2 := ExecutePending(cfg, s1, e);
        if s2.halt == None {
          match strategy(Observed(s2, e).shown)
          case Raises =>
          case Decision(signal, orders) => SameSubmits(cfg, Observed(s2, e), e, signal, orders);
        }
      }
    }
  }

  // The two sessions are one, over every run.
  lemma {:induction false} SameRun(cfg: Config, strategy: Strategy, s: Session, cs: seq<Command>)
    requires FillsWhole(cfg) && Names(s, s.pending)
    ensures Run(cfg, strategy, s, cs) == Run(AtOnce(cfg), strategy, s, cs) && Opened(cfg) == Opened(AtOnce(cfg))
    decreases |cs|
  {
    if cs != [] {
      match cs[0] {
        case Tick(e) => SameEvent(cfg, strategy, s, e);
        case _ =>
      }
      assert Obey(cfg, strategy, s, cs[0]) == Obey(AtOnce(cfg), strategy, s, cs[0]);
      hide Obey, FillsWhole, AtOnce;
      SameRun(cfg, strategy, Obey(cfg, strategy, s, cs[0]), cs[1..]);
    }
  }
}
