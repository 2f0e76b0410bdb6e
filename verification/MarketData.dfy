// Fail-closed validation of the event stream: paper/market_data.py.

module MarketData {
  import opened Trading

  datatype FeedConfig = FeedConfig(calendar: Option<set<int>>, requireCalendar: bool, requireKnown: bool,
                                   knownSymbols: set<string>, knownIds: set<string>)

  datatype Watermarks = Watermarks(seenIds: set<string>, seenPairs: set<(string, int)>, lastSeq: Option<int>,
                                   lastTs: map<string, int>)

  const NOTHING_SEEN := Watermarks({}, {}, None, map[])

  function AddIf(issues: seq<string>, condition: bool, code: string): (r: seq<string>)
    ensures r == [] <==> issues == [] && !condition
  {
    if condition then issues + [code] else issues
  }

  predicate Known(cfg: FeedConfig, e: Event) {
    e.bar.symbol in cfg.knownSymbols || (e.instrumentId.Some? && e.instrumentId.value in cfg.knownIds)
  }

  predicate ClosedDay(cfg: FeedConfig, e: Event) {
    cfg.calendar.Some? && SessionDate(e) !in cfg.calendar.value
  }

  // The issue codes of an event, in the order they are raised.
  function Issues(cfg: FeedConfig, w: Watermarks, e: Event): seq<string> {
    if !ValidEvent(e) then ["invalid_ohlc"]
    else
      var i1 := AddIf([], e.id in w.seenIds, "duplicate_event");
      var i2 := AddIf(i1, (e.bar.symbol, e.bar.timestamp) in w.seenPairs, "duplicate_event");
      var i3 := AddIf(i2, w.lastSeq.Some? && e.seqNo <= w.lastSeq.value, "out_of_order_event");
      var i4 := AddIf(i3, e.bar.symbol in w.lastTs && e.bar.timestamp < w.lastTs[e.bar.symbol],
                      "stale_or_out_of_order");
      var i5 := AddIf(i4, cfg.requireKnown && !Known(cfg, e), "unknown_instrument");
      AddIf(i5, cfg.requireCalendar && ClosedDay(cfg, e), "market_closed")
  }

  function Commit(w: Watermarks, e: Event): Watermarks {
    Watermarks(w.seenIds + {e.id}, w.seenPairs + {(e.bar.symbol, e.bar.timestamp)}, Some(e.seqNo),
               w.lastTs[e.bar.symbol := e.bar.timestamp])
  }

  function Validated(cfg: FeedConfig, w: Watermarks, e: Event): Watermarks {
    if Issues(cfg, w, e) == [] then Commit(w, e) else w
  }

  class Validator {
    const cfg: FeedConfig
    var seenIds: set<string>
    var seenPairs: set<(string, int)>
    var lastSeq: Option<int>
    var lastTs: map<string, int>

    function View(): Watermarks
      reads this
    {
      Watermarks(seenIds, seenPairs, lastSeq, lastTs)
    }

    constructor (cfg: FeedConfig)
      ensures this.cfg == cfg && View() == NOTHING_SEEN
    {
      this.cfg := cfg;
      seenIds, seenPairs, lastSeq, lastTs := {}, {}, None, map[];
    }

    method Clear()
      modifies this
      ensures View() == NOTHING_SEEN
    {
      seenIds, seenPairs, lastSeq, lastTs := {}, {}, None, map[];
    }

    method Validate(e: Event) returns (issues: seq<string>)
      modifies this
      ensures issues == Issues(cfg, old(View()), e)
      ensures View() == Validated(cfg, old(View()), e)
    {
      if !ValidEvent(e) {
        return ["invalid_ohlc"];
      }
      var key := (e.bar.symbol, e.bar.timestamp);
      issues := AddIf([], e.id in seenIds, "duplicate_event");
      issues := AddIf(issues, key in seenPairs, "duplicate_event");
      issues := AddIf(issues, lastSeq.Some? && e.seqNo <= lastSeq.value, "out_of_order_event");
      issues := AddIf(issues, e.bar.symbol in lastTs && e.bar.timestamp < lastTs[e.bar.symbol],
                      "stale_or_out_of_order");
      issues := AddIf(issues, cfg.requireKnown && !Known(cfg, e), "unknown_instrument");
      issues := AddIf(issues, cfg.requireCalendar && ClosedDay(cfg, e), "market_closed");
      if issues != [] {
        return;
      }
      seenIds := seenIds + {e.id};
      seenPairs := seenPairs + {key};
      lastSeq := Some(e.seqNo);
      lastTs := lastTs[e.bar.symbol := e.bar.timestamp];
    }
  }

  // ---- refinement: the seen-pairs set against a strict watermark

  ghost function Feed(cfg: FeedConfig, w: Watermarks, es: seq<Event>): Watermarks
    decreases |es|
  {
    if es == [] then w else Feed(cfg, Validated(cfg, w, es[0]), es[1..])
  }

  // The accepted events of a stream, in order.
  ghost function AcceptedEvents(cfg: FeedConfig, w: Watermarks, es: seq<Event>): seq<Event>
    decreases |es|
  {
    if es == [] then []
    else (if Issues(cfg, w, es[0]) == [] then [es[0]] else []) + AcceptedEvents(cfg, Validated(cfg, w, es[0]), es[1..])
  }

  // Every pair seen is at or below its symbol's watermark, which is itself a seen pair.
  ghost predicate Consistent(w: Watermarks) {
    && (forall p :: p in w.seenPairs ==> p.0 in w.lastTs && p.1 <= w.lastTs[p.0])
    && (forall s :: s in w.lastTs ==> (s, w.lastTs[s]) in w.seenPairs)
  }

  predicate FreshTime(w: Watermarks, e: Event) {
    e.bar.symbol in w.lastTs ==> e.bar.timestamp > w.lastTs[e.bar.symbol]
  }

  // On consistent watermarks the duplicate-pair test and the stale test together are one strict comparison.
  lemma AcceptedIff(cfg: FeedConfig, w: Watermarks, e: Event)
    requires Consistent(w)
    ensures Issues(cfg, w, e) == [] <==>
            && ValidEvent(e)
            && e.id !in w.seenIds
            && (w.lastSeq.Some? ==> e.seqNo > w.lastSeq.value)
            && FreshTime(w, e)
            && (cfg.requireKnown ==> Known(cfg, e))
            && (cfg.requireCalendar ==> !ClosedDay(cfg, e))
    ensures Consistent(Validated(cfg, w, e))
  {
    var p := (e.bar.symbol, e.bar.timestamp);
    assert p in w.seenPairs ==> p.0 in w.lastTs && p.1 <= w.lastTs[p.0];
  }

  ghost predicate OrderedStream(es: seq<Event>) {
    && (forall i, j :: 0 <= i < j < |es| ==> es[i].seqNo < es[j].seqNo && es[i].id != es[j].id)
    && (forall i, j :: 0 <= i < j < |es| && es[i].bar.symbol == es[j].bar.symbol ==>
          es[i].bar.timestamp < es[j].bar.timestamp)
  }

  // Everything accepted later is above the watermarks.
  ghost predicate AllAbove(w: Watermarks, es: seq<Event>) {
    forall i :: 0 <= i < |es| ==>
      && es[i].id !in w.seenIds && (w.lastSeq.Some? ==> es[i].seqNo > w.lastSeq.value) && FreshTime(w, es[i])
  }

  lemma AcceptedFirst(cfg: FeedConfig, w: Watermarks, e: Event, rest: seq<Event>)
    requires Consistent(w) && Issues(cfg, w, e) == []
    requires OrderedStream(rest) && AllAbove(Commit(w, e), rest)
    ensures OrderedStream([e] + rest) && AllAbove(w, [e] + rest)
  {
    AcceptedIff(cfg, w, e);
    hide Issues, Consistent;
    var all := [e] + rest;
    forall i | 0 <= i < |all|
      ensures all[i].id !in w.seenIds && (w.lastSeq.Some? ==> all[i].seqNo > w.lastSeq.value) && FreshTime(w, all[i])
    {
      assert i > 0 ==> all[i] == rest[i - 1];
    }
    forall j | 0 < j < |all|
      ensures e.seqNo < all[j].seqNo && e.id != all[j].id
      ensures e.bar.symbol == all[j].bar.symbol ==> e.bar.timestamp < all[j].bar.timestamp
    {
      assert all[j] == rest[j - 1];
    }
  }

  // For every event stream, what is accepted is strictly increasing in sequence number, has distinct ids, and is
  // strictly increasing in time per symbol, whatever was seen before.
  lemma {:induction false} AcceptedStreamOrdered(cfg: FeedConfig, w: Watermarks, es: seq<Event>)
    requires Consistent(w)
    ensures OrderedStream(AcceptedEvents(cfg, w, es)) && AllAbove(w, AcceptedEvents(cfg, w, es))
    ensures Consistent(Feed(cfg, w, es))
    decreases |es|
  {
    if es != [] {
      var e := es[0];
      AcceptedIff(cfg, w, e);
      hide Issues, Consistent, OrderedStream, AllAbove;
      var w' := Validated(cfg, w, e);
      var rest := AcceptedEvents(cfg, w', es[1..]);
      AcceptedStreamOrdered(cfg, w', es[1..]);
      if Issues(cfg, w, e) == [] {
        AcceptedFirst(cfg, w, e, rest);
        assert AcceptedEvents(cfg, w, es) == [e] + rest;
      } else {
        assert AcceptedEvents(cfg, w, es) == rest;
      }
    }
  }

  // An already ordered, admissible stream above the watermarks is accepted whole.
  lemma {:induction false} OrderedStreamAccepted(cfg: FeedConfig, w: Watermarks, es: seq<Event>)
    requires Consistent(w) && OrderedStream(es) && AllAbove(w, es)
    requires forall i :: 0 <= i < |es| ==>
               ValidEvent(es[i]) && (cfg.requireKnown ==> Known(cfg, es[i]))
               && (cfg.requireCalendar ==> !ClosedDay(cfg, es[i]))
    ensures AcceptedEvents(cfg, w, es) == es
    decreases |es|
  {
    if es != [] {
      var e := es[0];
      AcceptedIff(cfg, w, e);
      hide Issues, Consistent;
      var w' := Commit(w, e);
      var rest := es[1..];
      forall i | 0 <= i < |rest|
        ensures rest[i].id !in w'.seenIds && rest[i].seqNo > w'.lastSeq.value && FreshTime(w', rest[i])
      {
        assert rest[i] == es[i + 1] && e == es[0];
      }
      OrderedStreamAccepted(cfg, w', rest);
    }
  }
}
