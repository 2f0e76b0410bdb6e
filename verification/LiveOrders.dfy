// Broker order states, deterministic client order ids and the idempotency store: execution/live_orders.py.

module LiveOrders {
  import opened Trading

  datatype BrokerState =
    | UNKNOWN | CREATED | SUBMITTED | ACKNOWLEDGED | OPEN | PARTIALLY_FILLED | FILLED | CANCEL_PENDING | CANCELLED
    | REJECTED | EXPIRED

  predicate TerminalState(s: BrokerState) {
    s in {FILLED, CANCELLED, REJECTED, EXPIRED}
  }

  function Digit(d: nat): char
    requires d < 10
  {
    "0123456789"[d]
  }

  function Digits(n: nat): (s: string)
    ensures s != []
  {
    if n < 10 then [Digit(n)] else Digits(n / 10) + [Digit(n % 10)]
  }

  // The payload that is hashed into a client order id; equal ids mean equal payloads.
  function ClientOrderId(session: string, intentId: string, epoch: nat): string {
    "coid|" + session + "|" + intentId + "|" + Digits(epoch)
  }

  function Parse(s: string): nat {
    if s == [] then 0
    else
      var c := s[|s| - 1];
      Parse(s[..|s| - 1]) * 10 + (if '0' <= c <= '9' then (c as int) - ('0' as int) else 0)
  }

  lemma {:induction false} ParseDigits(n: nat)
    ensures Parse(Digits(n)) == n
    ensures forall i :: 0 <= i < |Digits(n)| ==> Digits(n)[i] != '|'
  {
    if n < 10 {
      assert Digits(n)[..0] == [];
    } else {
      ParseDigits(n / 10);
      assert Digits(n)[..|Digits(n)| - 1] == Digits(n / 10);
    }
  }

  // The text after the last bar.
  function AfterLastBar(s: string): string {
    if s == [] || s[|s| - 1] == '|' then [] else AfterLastBar(s[..|s| - 1]) + [s[|s| - 1]]
  }

  lemma {:induction false} TailAfterBar(x: string, d: string)
    requires forall i :: 0 <= i < |d| ==> d[i] != '|'
    ensures AfterLastBar(x + "|" + d) == d
  {
    var s := x + "|" + d;
    if d == [] {
      assert s[|s| - 1] == '|';
    } else {
      TailAfterBar(x, d[..|d| - 1]);
      assert s[..|s| - 1] == x + "|" + d[..|d| - 1];
      assert s[|s| - 1] == d[|d| - 1];
    }
  }

  // Within one session no two (intent, epoch) pairs share a client order id, whatever characters intents contain.
  lemma {:induction false} ClientOrderIdsDistinct(session: string, i1: string, e1: nat, i2: string, e2: nat)
    requires ClientOrderId(session, i1, e1) == ClientOrderId(session, i2, e2)
    ensures i1 == i2 && e1 == e2
  {
    ParseDigits(e1);
    ParseDigits(e2);
    hide Digits, AfterLastBar, Parse;
    SplitAtLastBar("coid|" + session + "|", i1, Digits(e1), i2, Digits(e2));
  }

  lemma SplitAtLastBar(head: string, i1: string, d1: string, i2: string, d2: string)
    requires head + i1 + "|" + d1 == head + i2 + "|" + d2
    requires forall i :: 0 <= i < |d1| ==> d1[i] != '|'
    requires forall i :: 0 <= i < |d2| ==> d2[i] != '|'
    ensures i1 == i2 && d1 == d2
  {
    TailAfterBar(head + i1, d1);
    TailAfterBar(head + i2, d2);
    hide AfterLastBar;
    assert d1 == d2;
    var id1, id2 := head + i1 + "|" + d1, head + i2 + "|" + d2;
    assert i1 == id1[|head|..|head| + |i1|] && i2 == id2[|head|..|head| + |i2|];
    assert |id1| == |head| + |i1| + 1 + |d1| && |id2| == |head| + |i2| + 1 + |d2|;
  }

  datatype Record = Record(clientId: string, intentId: string, session: string, epoch: nat, state: BrokerState,
                           brokerOrderId: Option<string>, filled: real)

  datatype Store = Store(byClient: map<string, Record>, byIntent: map<string, seq<string>>)

  const NO_RECORDS := Store(map[], map[])

  function IdsOf(st: Store, intentId: string): seq<string> {
    if intentId in st.byIntent then st.byIntent[intentId] else []
  }

  function Put(st: Store, r: Record): Store {
    var ids := IdsOf(st, r.intentId);
    Store(st.byClient[r.clientId := r],
          st.byIntent[r.intentId := if r.clientId in ids then ids else ids + [r.clientId]])
  }

  // Why a record in this state forbids another submission of its intent.
  function RetryBlock(s: BrokerState): Option<string> {
    match s
    case UNKNOWN => Some("unknown_broker_state_no_retry")
    case SUBMITTED => Some("submit_pending_no_retry")
    case ACKNOWLEDGED => Some("open_state_ACKNOWLEDGED_no_retry")
    case OPEN => Some("open_state_OPEN_no_retry")
    case PARTIALLY_FILLED => Some("open_state_PARTIALLY_FILLED_no_retry")
    case CANCEL_PENDING => Some("open_state_CANCEL_PENDING_no_retry")
    case _ => None
  }

  function FirstBlock(st: Store, ids: seq<string>): Option<string> {
    if ids == [] then None
    else if ids[0] in st.byClient && RetryBlock(st.byClient[ids[0]].state).Some? then
      RetryBlock(st.byClient[ids[0]].state)
    else FirstBlock(st, ids[1..])
  }

  // None allows the retry.
  function CanRetry(st: Store, intentId: string): Option<string> {
    FirstBlock(st, IdsOf(st, intentId))
  }

  lemma {:induction false} RetryOnlyAfterTerminal(st: Store, ids: seq<string>)
    ensures FirstBlock(st, ids) == None <==>
            forall c :: c in ids && c in st.byClient ==>
              TerminalState(st.byClient[c].state) || st.byClient[c].state == CREATED
  {
    if ids != [] {
      RetryOnlyAfterTerminal(st, ids[1..]);
      assert ids == [ids[0]] + ids[1..];
    }
  }

  class IdempotencyStore {
    var byClient: map<string, Record>
    var byIntent: map<string, seq<string>>

    function View(): Store
      reads this
    {
      Store(byClient, byIntent)
    }

    constructor ()
      ensures View() == NO_RECORDS
    {
      byClient, byIntent := map[], map[];
    }

    method PutRecord(r: Record)
      modifies this
      ensures View() == Put(old(View()), r)
    {
      byClient := byClient[r.clientId := r];
      if r.intentId !in byIntent {
        byIntent := byIntent[r.intentId := []];
      }
      if r.clientId !in byIntent[r.intentId] {
        byIntent := byIntent[r.intentId := byIntent[r.intentId] + [r.clientId]];
      }
    }

    method Retryable(intentId: string) returns (why: Option<string>)
      ensures why == CanRetry(View(), intentId)
    {
      var ids := if intentId in byIntent then byIntent[intentId] else [];
      for i := 0 to |ids|
        invariant FirstBlock(View(), ids) == FirstBlock(View(), ids[i..])
      {
        assert ids[i..][0] == ids[i] && ids[i..][1..] == ids[i + 1..];
        if ids[i] in byClient {
          why := RetryBlock(byClient[ids[i]].state);
          if why.Some? {
            return;
          }
        }
      }
      return None;
    }
  }
}
