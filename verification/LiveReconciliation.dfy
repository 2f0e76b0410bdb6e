// Comparing the gateway's records and books with the venue's: execution/reconciliation_live.py.

module LiveReconciliation {
  import opened Trading
  import opened LiveOrders
  import MockBroker

  const CASH_TOL := 0.0001

  // What is objected to in one record against the venue's view of it.
  predicate RecordDisputed(r: Record, state: BrokerState) {
    || (r.state == FILLED && state == UNKNOWN)
    || (r.state == UNKNOWN && state == FILLED)
    || (r.state in {ACKNOWLEDGED, SUBMITTED, PARTIALLY_FILLED} && state == CANCELLED)
    || (state == UNKNOWN && r.filled > 0.0)
  }

  predicate PositionDisputed(internal: map<string, real>, reported: map<string, real>, s: string) {
    if s in internal then Apart(internal[s], MockBroker.Get(reported, s), EPS6)
    else s in reported && (reported[s] > EPS6 || reported[s] < -EPS6)
  }

  datatype Issue =
    | MissingBrokerOrder(clientId: string) | FilledVsUnknown(clientId: string) | UnknownVsFilled(clientId: string)
    | OpenVsCancelled(clientId: string) | UnknownWithFill(clientId: string) | PositionMismatch(symbol: string)
    | CashMismatch

  // The findings about one record.
  ghost predicate RecordIssue(x: Issue, r: Record, views: map<string, BrokerState>) {
    if r.clientId !in views then
      x == MissingBrokerOrder(r.clientId) && r.state in {FILLED, ACKNOWLEDGED, PARTIALLY_FILLED}
    else
      var state := views[r.clientId];
      || (x == FilledVsUnknown(r.clientId) && r.state == FILLED && state == UNKNOWN)
      || (x == UnknownVsFilled(r.clientId) && r.state == UNKNOWN && state == FILLED)
      || (x == OpenVsCancelled(r.clientId) && r.state in {ACKNOWLEDGED, SUBMITTED, PARTIALLY_FILLED}
          && state == CANCELLED)
      || (x == UnknownWithFill(r.clientId) && state == UNKNOWN && r.filled > 0.0)
  }

  ghost predicate PositionIssue(x: Issue, internal: map<string, real>, reported: map<string, real>) {
    x.PositionMismatch? && PositionDisputed(internal, reported, x.symbol)
  }

  ghost predicate AmongRecords(x: Issue, records: seq<Record>, views: map<string, BrokerState>) {
    exists k :: 0 <= k < |records| && RecordIssue(x, records[k], views)
  }

  method CompareRecord(r: Record, views: map<string, BrokerState>) returns (issues: seq<Issue>)
    ensures forall x :: x in issues <==> RecordIssue(x, r, views)
  {
    issues := [];
    if r.clientId !in views {
      if r.state in {FILLED, ACKNOWLEDGED, PARTIALLY_FILLED} {
        issues := [MissingBrokerOrder(r.clientId)];
      }
      return;
    }
    var state := views[r.clientId];
    if r.state == FILLED && state == UNKNOWN {
      issues := issues + [FilledVsUnknown(r.clientId)];
    }
    if r.state == UNKNOWN && state == FILLED {
      issues := issues + [UnknownVsFilled(r.clientId)];
    }
    if r.state in {ACKNOWLEDGED, SUBMITTED, PARTIALLY_FILLED} && state == CANCELLED {
      issues := issues + [OpenVsCancelled(r.clientId)];
    }
    if state == UNKNOWN && r.filled > 0.0 {
      issues := issues + [UnknownWithFill(r.clientId)];
    }
  }

  method CompareRecords(records: seq<Record>, views: map<string, BrokerState>) returns (issues: seq<Issue>)
    ensures forall x :: x in issues <==> AmongRecords(x, records, views)
  {
    hide RecordIssue;
    issues := [];
    for k := 0 to |records|
      invariant forall x :: x in issues <==> AmongRecords(x, records[..k], views)
    {
      var more := CompareRecord(records[k], views);
      AmongExtended(records, k, views);
      issues := issues + more;
    }
    assert records[..|records|] == records;
  }

  lemma AmongExtended(records: seq<Record>, k: nat, views: map<string, BrokerState>)
    requires k < |records|
    ensures forall x :: AmongRecords(x, records[..k + 1], views) <==>
                        AmongRecords(x, records[..k], views) || RecordIssue(x, records[k], views)
  {
    hide RecordIssue;
    var now, next := records[..k], records[..k + 1];
    assert next == now + [records[k]];
    forall x
      ensures AmongRecords(x, next, views) <==> AmongRecords(x, now, views) || RecordIssue(x, records[k], views)
    {
      if AmongRecords(x, now, views) {
        var j :| 0 <= j < |now| && RecordIssue(x, now[j], views);
        assert RecordIssue(x, next[j], views);
      }
      if RecordIssue(x, records[k], views) {
        assert RecordIssue(x, next[k], views);
      }
    }
  }

  // Internal positions first, then what only the venue holds.
  method ComparePositions(internal: map<string, real>, reported: map<string, real>) returns (issues: seq<Issue>)
    ensures forall x :: x in issues <==> PositionIssue(x, internal, reported)
  {
    issues := [];
    var todo := internal.Keys;
    while todo != {}
      invariant todo <= internal.Keys
      invariant forall x :: x in issues <==>
                            PositionIssue(x, internal, reported) && x.symbol in internal && x.symbol !in todo
      decreases todo
    {
      var s :| s in todo;
      if Apart(internal[s], MockBroker.Get(reported, s), EPS6) {
        issues := issues + [PositionMismatch(s)];
      }
      todo := todo - {s};
    }
    todo := reported.Keys;
    while todo != {}
      invariant todo <= reported.Keys
      invariant forall x :: x in issues <==>
                            PositionIssue(x, internal, reported) && (x.symbol in internal || x.symbol !in todo)
      decreases todo
    {
      var s :| s in todo;
      if s !in internal && (reported[s] > EPS6 || reported[s] < -EPS6) {
        issues := issues + [PositionMismatch(s)];
      }
      todo := todo - {s};
    }
  }

  // reconcile_live_state: exactly the findings that hold.
  method ReconcileLiveState(records: seq<Record>, views: map<string, BrokerState>, internal: map<string, real>,
                            reported: map<string, real>, cash: real, venueCash: real) returns (issues: seq<Issue>)
    ensures forall x :: x in issues <==>
                        || AmongRecords(x, records, views) || PositionIssue(x, internal, reported)
                        || (x == CashMismatch && Apart(cash, venueCash, CASH_TOL))
  {
    issues := CompareRecords(records, views);
    var more := ComparePositions(internal, reported);
    issues := issues + more;
    if Apart(cash, venueCash, CASH_TOL) {
      issues := issues + [CashMismatch];
    }
    hide AmongRecords, PositionIssue;
  }

  // No finding at all means no dispute, provided every record was looked up.
  lemma NoIssueIff(records: seq<Record>, views: map<string, BrokerState>, internal: map<string, real>,
                   reported: map<string, real>)
    requires forall r :: r in records ==> r.clientId in views
    ensures (forall x :: !AmongRecords(x, records, views)) <==>
            (forall r :: r in records ==> !RecordDisputed(r, views[r.clientId]))
    ensures (forall x :: !PositionIssue(x, internal, reported)) <==>
            (forall s :: !PositionDisputed(internal, reported, s))
  {
    hide PositionDisputed;
    forall r | r in records
      ensures RecordDisputed(r, views[r.clientId]) ==> exists x :: AmongRecords(x, records, views)
    {
      RecordIssueIff(r, views);
      hide RecordDisputed, RecordIssue;
      if RecordDisputed(r, views[r.clientId]) {
        var x :| RecordIssue(x, r, views);
        assert AmongRecords(x, records, views);
      }
    }
    forall x | AmongRecords(x, records, views)
      ensures exists r :: r in records && RecordDisputed(r, views[r.clientId])
    {
      hide RecordDisputed, RecordIssue;
      var k :| 0 <= k < |records| && RecordIssue(x, records[k], views);
      RecordIssueIff(records[k], views);
    }
    forall s | PositionDisputed(internal, reported, s)
      ensures PositionIssue(PositionMismatch(s), internal, reported)
    {
    }
  }

  lemma RecordIssueIff(r: Record, views: map<string, BrokerState>)
    requires r.clientId in views
    ensures (exists x :: RecordIssue(x, r, views)) <==> RecordDisputed(r, views[r.clientId])
  {
    var c := r.clientId;
    if RecordDisputed(r, views[c]) {
      assert RecordIssue(FilledVsUnknown(c), r, views) || RecordIssue(UnknownVsFilled(c), r, views)
             || RecordIssue(OpenVsCancelled(c), r, views) || RecordIssue(UnknownWithFill(c), r, views);
    }
  }
}
