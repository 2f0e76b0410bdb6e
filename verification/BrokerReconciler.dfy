// Local expectation against the broker's report: execution/reconciliation.py.

module BrokerReconciler {
  import opened Trading
  import opened LiveOrders

  // A blank id stands for a missing one.
  datatype OrderView = OrderView(id: string, quantity: real, state: BrokerState, filled: real, price: Option<real>,
                                 updatedAt: Option<int>)

  datatype PositionView = PositionView(symbol: string, quantity: real, average: real)

  datatype Local = Local(orders: seq<OrderView>, positions: seq<PositionView>, fillQuantities: map<string, real>,
                         fillPrices: map<string, real>, fillIds: seq<string>, tradeIds: seq<string>, now: int,
                         staleAfter: real)

  datatype Remote = Remote(orders: seq<OrderView>, positions: seq<PositionView>, tradeIds: seq<string>)

  datatype Finding =
    | DuplicateRemoteOrder(key: string) | DuplicateLocalOrder(key: string) | DuplicateFill(key: string)
    | OrderMissing(key: string) | OrderQuantity(key: string) | OrderStatus(key: string) | OrderUnknown(key: string)
    | StaleOrder(key: string) | FillMissing(key: string) | FillQuantity(key: string) | FillPrice(key: string)
    | OrderNotLocal(key: string) | FillNotLocal(key: string) | TradeNotLocal(key: string) | PositionMissing(key: string)
    | PositionQuantity(key: string) | PositionPrice(key: string) | UnexpectedPosition(key: string)
    | EmptyPosition(key: string)

  // The dictionaries the original builds: the last entry under a key wins, blank ids are left out.
  function OrdersById(orders: seq<OrderView>): map<string, OrderView> {
    if orders == [] then map[]
    else
      var rest, o := OrdersById(orders[..|orders| - 1]), orders[|orders| - 1];
      if o.id == "" then rest else rest[o.id := o]
  }

  function PositionsBySymbol(positions: seq<PositionView>): map<string, PositionView> {
    if positions == [] then map[]
    else
      var p := positions[|positions| - 1];
      PositionsBySymbol(positions[..|positions| - 1])[p.symbol := p]
  }

  predicate StateAllowed(mine: BrokerState, theirs: BrokerState) {
    mine == theirs || (mine == ACKNOWLEDGED && theirs == OPEN)
  }

  predicate Stale(l: Local, mine: OrderView, theirs: OrderView) {
    var ts := if mine.updatedAt.Some? then mine.updatedAt else theirs.updatedAt;
    && ts.Some? && mine.state in {OPEN, SUBMITTED, ACKNOWLEDGED, PARTIALLY_FILLED}
    && (l.now - ts.value) as real > l.staleAfter
  }

  predicate PriceDiffers(l: Local, id: string, theirs: OrderView) {
    id in l.fillPrices && theirs.price.Some? && Apart(l.fillPrices[id], theirs.price.value, EPS6)
  }

  predicate Repeated(ids: seq<string>, id: string) {
    exists i, j :: 0 <= i < j < |ids| && ids[i] == id && ids[j] == id
  }

  function Ids(orders: seq<OrderView>): seq<string> {
    seq(|orders|, i requires 0 <= i < |orders| => orders[i].id)
  }

  // ---- what each part of the comparison reports

  predicate OrderFinding(f: Finding, l: Local, mine: map<string, OrderView>, theirs: map<string, OrderView>) {
    f.key in mine &&
    if f.key !in theirs then f.OrderMissing?
    else
      var lo, bo := mine[f.key], theirs[f.key];
      || (f.OrderQuantity? && Apart(lo.quantity, bo.quantity, EPS9))
      || (f.OrderStatus? && !StateAllowed(lo.state, bo.state))
      || (f.OrderUnknown? && (lo.state == UNKNOWN || bo.state == UNKNOWN))
      || (f.StaleOrder? && Stale(l, lo, bo))
  }

  predicate FillFinding(f: Finding, l: Local, theirs: map<string, OrderView>) {
    f.key in l.fillQuantities &&
    if f.key !in theirs then f.FillMissing?
    else
      || (f.FillQuantity? && Apart(l.fillQuantities[f.key], theirs[f.key].filled, EPS9))
      || (f.FillPrice? && PriceDiffers(l, f.key, theirs[f.key]))
  }

  predicate RemoteFinding(f: Finding, l: Local, mine: map<string, OrderView>, theirs: map<string, OrderView>) {
    f.key in theirs && f.key !in l.fillQuantities
    && ((f.OrderNotLocal? && f.key !in mine) || (f.FillNotLocal? && theirs[f.key].filled > 0.0))
  }

  predicate PositionFinding(f: Finding, mine: map<string, PositionView>, theirs: map<string, PositionView>) {
    if f.key in mine && f.key in theirs then
      || (f.PositionQuantity? && Apart(mine[f.key].quantity, theirs[f.key].quantity, EPS9))
      || (f.PositionPrice? && Apart(mine[f.key].average, theirs[f.key].average, EPS6))
    else if f.key in mine then f.PositionMissing?
    else
      f.key in theirs && if theirs[f.key].quantity != 0.0 then f.UnexpectedPosition? else f.EmptyPosition?
  }

  predicate ListFinding(f: Finding, l: Local, r: Remote) {
    || (f.DuplicateRemoteOrder? && f.key != "" && Repeated(Ids(r.orders), f.key))
    || (f.DuplicateLocalOrder? && f.key != "" && Repeated(Ids(l.orders), f.key))
    || (f.DuplicateFill? && Repeated(l.fillIds, f.key))
    || (f.TradeNotLocal? && f.key in r.tradeIds && f.key !in l.tradeIds)
  }

  predicate Holds(f: Finding, l: Local, r: Remote) {
    || ListFinding(f, l, r)
    || OrderFinding(f, l, OrdersById(l.orders), OrdersById(r.orders))
    || FillFinding(f, l, OrdersById(r.orders))
    || RemoteFinding(f, l, OrdersById(l.orders), OrdersById(r.orders))
    || PositionFinding(f, PositionsBySymbol(l.positions), PositionsBySymbol(r.positions))
  }

  // ---- agreement, with no dictionaries

  predicate OrdersAgree(l: Local, mine: OrderView, theirs: OrderView) {
    && mine.id == theirs.id && !Apart(mine.quantity, theirs.quantity, EPS9) && StateAllowed(mine.state, theirs.state)
    && mine.state != UNKNOWN && theirs.state != UNKNOWN && !Stale(l, mine, theirs)
  }

  predicate FillsAgree(l: Local, id: string, theirs: OrderView)
    requires id in l.fillQuantities
  {
    theirs.id == id && !Apart(l.fillQuantities[id], theirs.filled, EPS9) && !PriceDiffers(l, id, theirs)
  }

  // What the last position listed for a symbol is.
  predicate LastListed(ps: seq<PositionView>, p: PositionView) {
    exists i :: 0 <= i < |ps| && ps[i] == p && forall j :: i < j < |ps| ==> ps[j].symbol != p.symbol
  }

  predicate PositionsAgree(mine: PositionView, theirs: PositionView) {
    && mine.symbol == theirs.symbol && !Apart(mine.quantity, theirs.quantity, EPS9)
    && !Apart(mine.average, theirs.average, EPS6)
  }

  predicate DistinctNonblank(orders: seq<OrderView>) {
    forall i, j :: 0 <= i < j < |orders| && orders[i].id == orders[j].id ==> orders[i].id == ""
  }

  predicate KnownLocally(l: Local, id: string) {
    id in l.fillQuantities || exists i :: 0 <= i < |l.orders| && l.orders[i].id == id
  }

  ghost predicate OrdersMatch(l: Local, r: Remote) {
    && (forall lo :: lo in l.orders && lo.id != "" ==> exists bo :: bo in r.orders && OrdersAgree(l, lo, bo))
    && (forall id :: id in l.fillQuantities ==> exists bo :: bo in r.orders && bo.id != "" && FillsAgree(l, id, bo))
    && (forall bo :: bo in r.orders && bo.id != "" ==>
          KnownLocally(l, bo.id) && (bo.filled > 0.0 ==> bo.id in l.fillQuantities))
  }

  ghost predicate PositionsMatch(l: Local, r: Remote) {
    && (forall p :: LastListed(l.positions, p) ==> exists q :: LastListed(r.positions, q) && PositionsAgree(p, q))
    && (forall q :: LastListed(r.positions, q) ==> exists p :: LastListed(l.positions, p) && PositionsAgree(p, q))
  }

  ghost predicate Agreement(l: Local, r: Remote) {
    && DistinctNonblank(r.orders) && DistinctNonblank(l.orders)
    && (forall i, j :: 0 <= i < j < |l.fillIds| ==> l.fillIds[i] != l.fillIds[j])
    && (forall t :: t in r.tradeIds ==> t in l.tradeIds)
    && OrdersMatch(l, r) && PositionsMatch(l, r)
  }

  // ---- reconcile

  method FindRepeats(ids: seq<string>) returns (repeats: seq<string>)
    ensures forall id :: id in repeats <==> Repeated(ids, id)
  {
    repeats := [];
    var seen: set<string> := {};
    for k := 0 to |ids|
      invariant forall id :: id in seen <==> id in ids[..k]
      invariant forall id :: id in repeats <==> Repeated(ids[..k], id)
    {
      RepeatedOnce(ids, k);
      if ids[k] in seen {
        repeats := repeats + [ids[k]];
      }
      seen := seen + {ids[k]};
      assert ids[..k + 1] == ids[..k] + [ids[k]];
    }
    assert ids[..|ids|] == ids;
  }

  lemma RepeatedOnce(ids: seq<string>, k: nat)
    requires k < |ids|
    ensures forall id :: Repeated(ids[..k + 1], id) <==> Repeated(ids[..k], id) || (id == ids[k] && id in ids[..k])
  {
    var now, next := ids[..k], ids[..k + 1];
    forall id
      ensures Repeated(next, id) <==> Repeated(now, id) || (id == ids[k] && id in now)
    {
      if Repeated(now, id) {
        var i, j :| 0 <= i < j < |now| && now[i] == id && now[j] == id;
        assert next[i] == id && next[j] == id;
      }
      if id == ids[k] && id in now {
        var i :| 0 <= i < |now| && now[i] == id;
        assert next[i] == id && next[k] == id;
      }
      if Repeated(next, id) {
        var i, j :| 0 <= i < j < |next| && next[i] == id && next[j] == id;
        assert now[i] == id;
        assert j < k ==> now[j] == id;
      }
    }
  }

  method IndexOrders(orders: seq<OrderView>) returns (byId: map<string, OrderView>)
    ensures byId == OrdersById(orders)
  {
    byId := map[];
    for k := 0 to |orders|
      invariant byId == OrdersById(orders[..k])
    {
      assert orders[..k + 1][..k] == orders[..k];
      if orders[k].id != "" {
        byId := byId[orders[k].id := orders[k]];
      }
    }
    assert orders[..|orders|] == orders;
  }

  method IndexPositions(ps: seq<PositionView>) returns (bySymbol: map<string, PositionView>)
    ensures bySymbol == PositionsBySymbol(ps)
  {
    bySymbol := map[];
    for k := 0 to |ps|
      invariant bySymbol == PositionsBySymbol(ps[..k])
    {
      assert ps[..k + 1][..k] == ps[..k];
      bySymbol := bySymbol[ps[k].symbol := ps[k]];
    }
    assert ps[..|ps|] == ps;
  }

  method CompareOrders(l: Local, mine: map<string, OrderView>, theirs: map<string, OrderView>)
    returns (findings: seq<Finding>)
    ensures forall f :: f in findings <==> OrderFinding(f, l, mine, theirs)
  {
    hide Apart, StateAllowed, Stale;
    findings := [];
    var todo := mine.Keys;
    while todo != {}
      invariant todo <= mine.Keys
      invariant forall f :: f in findings <==> OrderFinding(f, l, mine, theirs) && f.key !in todo
      decreases todo
    {
      var id :| id in todo;
      var more := CompareOrder(l, id, mine, theirs);
      findings := findings + more;
      todo := todo - {id};
    }
  }

  method CompareOrder(l: Local, id: string, mine: map<string, OrderView>, theirs: map<string, OrderView>)
    returns (findings: seq<Finding>)
    requires id in mine
    ensures forall f :: f in findings <==> OrderFinding(f, l, mine, theirs) && f.key == id
  {
    hide Apart, StateAllowed, Stale;
    findings := [];
    if id !in theirs {
      return [OrderMissing(id)];
    }
    var lo, bo := mine[id], theirs[id];
    if Apart(lo.quantity, bo.quantity, EPS9) {
      findings := findings + [OrderQuantity(id)];
    }
    if !StateAllowed(lo.state, bo.state) {
      findings := findings + [OrderStatus(id)];
    }
    if lo.state == UNKNOWN || bo.state == UNKNOWN {
      findings := findings + [OrderUnknown(id)];
    }
    if Stale(l, lo, bo) {
      findings := findings + [StaleOrder(id)];
    }
  }

  method CompareFills(l: Local, theirs: map<string, OrderView>) returns (findings: seq<Finding>)
    ensures forall f :: f in findings <==> FillFinding(f, l, theirs)
  {
    hide Apart, PriceDiffers;
    findings := [];
    var todo := l.fillQuantities.Keys;
    while todo != {}
      invariant todo <= l.fillQuantities.Keys
      invariant forall f :: f in findings <==> FillFinding(f, l, theirs) && f.key !in todo
      decreases todo
    {
      var id :| id in todo;
      todo := todo - {id};
      if id !in theirs {
        findings := findings + [FillMissing(id)];
        continue;
      }
      if Apart(l.fillQuantities[id], theirs[id].filled, EPS9) {
        findings := findings + [FillQuantity(id)];
      }
      if PriceDiffers(l, id, theirs[id]) {
        findings := findings + [FillPrice(id)];
      }
    }
  }

  method CompareRemote(l: Local, mine: map<string, OrderView>, theirs: map<string, OrderView>)
    returns (findings: seq<Finding>)
    ensures forall f :: f in findings <==> RemoteFinding(f, l, mine, theirs)
  {
    findings := [];
    var todo := theirs.Keys;
    while todo != {}
      invariant todo <= theirs.Keys
      invariant forall f :: f in findings <==> RemoteFinding(f, l, mine, theirs) && f.key !in todo
      decreases todo
    {
      var id :| id in todo;
      todo := todo - {id};
      if id !in mine && id !in l.fillQuantities {
        findings := findings + [OrderNotLocal(id)];
      }
      if theirs[id].filled > 0.0 && id !in l.fillQuantities {
        findings := findings + [FillNotLocal(id)];
      }
    }
  }

  method ComparePositions(mine: map<string, PositionView>, theirs: map<string, PositionView>)
    returns (findings: seq<Finding>)
    ensures forall f :: f in findings <==> PositionFinding(f, mine, theirs)
  {
    hide Apart;
    findings := [];
    var todo := mine.Keys;
    while todo != {}
      invariant todo <= mine.Keys
      invariant forall f :: f in findings <==>
                            PositionFinding(f, mine, theirs) && f.key in mine && f.key !in todo
      decreases todo
    {
      var s :| s in todo;
      todo := todo - {s};
      if s !in theirs {
        findings := findings + [PositionMissing(s)];
        continue;
      }
      if Apart(mine[s].quantity, theirs[s].quantity, EPS9) {
        findings := findings + [PositionQuantity(s)];
      }
      if Apart(mine[s].average, theirs[s].average, EPS6) {
        findings := findings + [PositionPrice(s)];
      }
    }
    todo := theirs.Keys;
    while todo != {}
      invariant todo <= theirs.Keys
      invariant forall f :: f in findings <==>
                            PositionFinding(f, mine, theirs) && (f.key in mine || f.key !in todo)
      decreases todo
    {
      var s :| s in todo;
      todo := todo - {s};
      if s !in mine {
        findings := findings + [if theirs[s].quantity != 0.0 then UnexpectedPosition(s) else EmptyPosition(s)];
      }
    }
  }

  method CompareLists(l: Local, r: Remote) returns (findings: seq<Finding>)
    ensures forall f :: f in findings <==> ListFinding(f, l, r)
  {
    hide Repeated;
    var remote := FindRepeats(Ids(r.orders));
    var mine := FindRepeats(Ids(l.orders));
    var fills := FindRepeats(l.fillIds);
    findings := [];
    for k := 0 to |remote|
      invariant forall f :: f in findings <==> f.DuplicateRemoteOrder? && f.key != "" && f.key in remote[..k]
    {
      assert remote[..k + 1] == remote[..k] + [remote[k]];
      if remote[k] != "" {
        findings := findings + [DuplicateRemoteOrder(remote[k])];
      }
    }
    assert remote[..|remote|] == remote;
    ghost var before := findings;
    for k := 0 to |mine|
      invariant forall f :: f in findings <==>
                            f in before || (f.DuplicateLocalOrder? && f.key != "" && f.key in mine[..k])
    {
      assert mine[..k + 1] == mine[..k] + [mine[k]];
      if mine[k] != "" {
        findings := findings + [DuplicateLocalOrder(mine[k])];
      }
    }
    assert mine[..|mine|] == mine;
    before := findings;
    for k := 0 to |fills|
      invariant forall f :: f in findings <==> f in before || (f.DuplicateFill? && f.key in fills[..k])
    {
      assert fills[..k + 1] == fills[..k] + [fills[k]];
      findings := findings + [DuplicateFill(fills[k])];
    }
    assert fills[..|fills|] == fills;
    before := findings;
    for k := 0 to |r.tradeIds|
      invariant forall f :: f in findings <==>
                            f in before || (f.TradeNotLocal? && f.key in r.tradeIds[..k] && f.key !in l.tradeIds)
    {
      assert r.tradeIds[..k + 1] == r.tradeIds[..k] + [r.tradeIds[k]];
      if r.tradeIds[k] !in l.tradeIds {
        findings := findings + [TradeNotLocal(r.tradeIds[k])];
      }
    }
    assert r.tradeIds[..|r.tradeIds|] == r.tradeIds;
  }

  // matched exactly when the two sides agree; otherwise exactly the findings that hold.
  method Reconcile(l: Local, r: Remote) returns (findings: seq<Finding>, matched: bool)
    ensures forall f :: f in findings <==> Holds(f, l, r)
    ensures matched <==> Agreement(l, r)
  {
    findings := CompareLists(l, r);
    var theirs := IndexOrders(r.orders);
    var mine := IndexOrders(l.orders);
    var more := CompareOrders(l, mine, theirs);
    findings := findings + more;
    more := CompareFills(l, theirs);
    findings := findings + more;
    more := CompareRemote(l, mine, theirs);
    findings := findings + more;
    var myPositions := IndexPositions(l.positions);
    var theirPositions := IndexPositions(r.positions);
    more := ComparePositions(myPositions, theirPositions);
    findings := findings + more;
    matched := findings == [];
    NothingHoldsIff(l, r);
    hide Agreement, ListFinding, OrderFinding, FillFinding, RemoteFinding, PositionFinding, OrdersById,
      PositionsBySymbol;
    if findings != [] {
      assert findings[0] in findings;
    }
  }

  // ---- the findings against the agreement

  lemma {:induction false} OrdersByIdShape(orders: seq<OrderView>)
    ensures forall id :: id in OrdersById(orders) ==>
              id != "" && OrdersById(orders)[id] in orders && OrdersById(orders)[id].id == id
    ensures forall i :: 0 <= i < |orders| && orders[i].id != "" ==> orders[i].id in OrdersById(orders)
    ensures DistinctNonblank(orders) ==>
              forall i :: 0 <= i < |orders| && orders[i].id != "" ==> OrdersById(orders)[orders[i].id] == orders[i]
  {
    if orders != [] {
      var rest, o := orders[..|orders| - 1], orders[|orders| - 1];
      assert orders == rest + [o];
      OrdersByIdShape(rest);
      if DistinctNonblank(orders) {
        assert DistinctNonblank(rest) by {
          assert forall i :: 0 <= i < |rest| ==> rest[i] == orders[i];
        }
      }
    }
  }

  // The last position of a list, and those before it that it does not replace.
  lemma LastListedStep(ps: seq<PositionView>, p: PositionView)
    requires ps != []
    ensures var n := |ps| - 1;
            LastListed(ps, p) <==> p == ps[n] || (p.symbol != ps[n].symbol && LastListed(ps[..n], p))
  {
    var n := |ps| - 1;
    var rest := ps[..n];
    if p == ps[n] {
      assert ps[n] == p;
    }
    if p.symbol != ps[n].symbol && LastListed(rest, p) {
      var i :| 0 <= i < |rest| && rest[i] == p && forall j :: i < j < |rest| ==> rest[j].symbol != p.symbol;
      assert ps[i] == p && forall j :: i < j < |ps| ==> ps[j].symbol != p.symbol;
    }
    if LastListed(ps, p) {
      var i :| 0 <= i < |ps| && ps[i] == p && forall j :: i < j < |ps| ==> ps[j].symbol != p.symbol;
      if i < n {
        assert ps[n].symbol != p.symbol;
        assert rest[i] == p && forall j :: i < j < |rest| ==> rest[j] == ps[j];
      }
    }
  }

  ghost predicate PositionIndex(ps: seq<PositionView>, bySymbol: map<string, PositionView>) {
    && (forall s :: s in bySymbol ==> bySymbol[s].symbol == s)
    && (forall p :: LastListed(ps, p) <==> p.symbol in bySymbol && bySymbol[p.symbol] == p)
  }

  lemma {:induction false} PositionsBySymbolShape(ps: seq<PositionView>)
    ensures PositionIndex(ps, PositionsBySymbol(ps))
  {
    if ps != [] {
      var n := |ps| - 1;
      PositionsBySymbolShape(ps[..n]);
      forall p
        ensures LastListed(ps, p) <==> p.symbol in PositionsBySymbol(ps) && PositionsBySymbol(ps)[p.symbol] == p
      {
        LastListedStep(ps, p);
        hide LastListed;
      }
    }
  }

  ghost predicate ListsQuiet(l: Local, r: Remote) {
    forall f :: !ListFinding(f, l, r)
  }

  ghost predicate PositionsQuiet(l: Local, r: Remote) {
    forall f :: !PositionFinding(f, PositionsBySymbol(l.positions), PositionsBySymbol(r.positions))
  }

  lemma ListsIff(l: Local, r: Remote)
    ensures ListsQuiet(l, r) <==>
            && DistinctNonblank(r.orders) && DistinctNonblank(l.orders)
            && (forall i, j :: 0 <= i < j < |l.fillIds| ==> l.fillIds[i] != l.fillIds[j])
            && (forall t :: t in r.tradeIds ==> t in l.tradeIds)
  {
    if ListsQuiet(l, r) {
      forall i, j | 0 <= i < j < |r.orders| && r.orders[i].id == r.orders[j].id
        ensures r.orders[i].id == ""
      {
        assert Ids(r.orders)[i] == Ids(r.orders)[j] == r.orders[i].id;
        assert !ListFinding(DuplicateRemoteOrder(r.orders[i].id), l, r);
      }
      forall i, j | 0 <= i < j < |l.orders| && l.orders[i].id == l.orders[j].id
        ensures l.orders[i].id == ""
      {
        assert Ids(l.orders)[i] == Ids(l.orders)[j] == l.orders[i].id;
        assert !ListFinding(DuplicateLocalOrder(l.orders[i].id), l, r);
      }
      forall i, j | 0 <= i < j < |l.fillIds|
        ensures l.fillIds[i] != l.fillIds[j]
      {
        assert !ListFinding(DuplicateFill(l.fillIds[i]), l, r);
      }
      forall t | t in r.tradeIds
        ensures t in l.tradeIds
      {
        assert !ListFinding(TradeNotLocal(t), l, r);
      }
    }
  }

  ghost predicate OrdersQuiet(l: Local, mine: map<string, OrderView>, theirs: map<string, OrderView>) {
    && (forall f :: !OrderFinding(f, l, mine, theirs))
    && (forall f :: !FillFinding(f, l, theirs))
    && (forall f :: !RemoteFinding(f, l, mine, theirs))
  }

  // What the order dictionaries are to their lists.
  ghost predicate Index(orders: seq<OrderView>, byId: map<string, OrderView>) {
    && (forall id :: id in byId ==> id != "" && byId[id] in orders && byId[id].id == id)
    && (forall o :: o in orders && o.id != "" ==> o.id in byId && byId[o.id] == o)
  }

  // With distinct ids, the three order comparisons report nothing exactly when the order lists match.
  lemma OrdersIff(l: Local, r: Remote)
    requires DistinctNonblank(r.orders) && DistinctNonblank(l.orders)
    ensures OrdersQuiet(l, OrdersById(l.orders), OrdersById(r.orders)) <==> OrdersMatch(l, r)
  {
    OrdersByIdShape(l.orders);
    OrdersByIdShape(r.orders);
    var mine, theirs := OrdersById(l.orders), OrdersById(r.orders);
    hide OrdersById, OrdersMatch, OrdersQuiet;
    assert Index(l.orders, mine) && Index(r.orders, theirs);
    if OrdersQuiet(l, mine, theirs) {
      QuietOrdersMatch(l, r, mine, theirs);
    }
    if OrdersMatch(l, r) {
      MatchingOrdersQuiet(l, r, mine, theirs);
    }
  }

  lemma QuietOrdersMatch(l: Local, r: Remote, mine: map<string, OrderView>, theirs: map<string, OrderView>)
    requires Index(l.orders, mine) && Index(r.orders, theirs) && OrdersQuiet(l, mine, theirs)
    ensures OrdersMatch(l, r)
  {
    hide Apart, StateAllowed, Stale, PriceDiffers;
    forall lo | lo in l.orders && lo.id != ""
      ensures exists bo :: bo in r.orders && OrdersAgree(l, lo, bo)
    {
      var id := lo.id;
      assert !OrderFinding(OrderMissing(id), l, mine, theirs) && !OrderFinding(OrderQuantity(id), l, mine, theirs)
             && !OrderFinding(OrderStatus(id), l, mine, theirs) && !OrderFinding(OrderUnknown(id), l, mine, theirs)
             && !OrderFinding(StaleOrder(id), l, mine, theirs);
      assert OrdersAgree(l, lo, theirs[id]);
    }
    forall id | id in l.fillQuantities
      ensures exists bo :: bo in r.orders && bo.id != "" && FillsAgree(l, id, bo)
    {
      assert !FillFinding(FillMissing(id), l, theirs) && !FillFinding(FillQuantity(id), l, theirs)
             && !FillFinding(FillPrice(id), l, theirs);
      assert FillsAgree(l, id, theirs[id]);
    }
    forall bo | bo in r.orders && bo.id != ""
      ensures KnownLocally(l, bo.id) && (bo.filled > 0.0 ==> bo.id in l.fillQuantities)
    {
      assert !RemoteFinding(OrderNotLocal(bo.id), l, mine, theirs)
             && !RemoteFinding(FillNotLocal(bo.id), l, mine, theirs);
      if bo.id !in l.fillQuantities {
        var i :| 0 <= i < |l.orders| && l.orders[i] == mine[bo.id];
      }
    }
  }

  lemma MatchingOrdersQuiet(l: Local, r: Remote, mine: map<string, OrderView>, theirs: map<string, OrderView>)
    requires Index(l.orders, mine) && Index(r.orders, theirs) && OrdersMatch(l, r)
    ensures OrdersQuiet(l, mine, theirs)
  {
    hide Apart, StateAllowed, Stale, PriceDiffers;
    forall f
      ensures !OrderFinding(f, l, mine, theirs)
    {
      if f.key in mine {
        var bo :| bo in r.orders && OrdersAgree(l, mine[f.key], bo);
        assert theirs[bo.id] == bo;
      }
    }
    forall f
      ensures !FillFinding(f, l, theirs)
    {
      if f.key in l.fillQuantities {
        var bo :| bo in r.orders && bo.id != "" && FillsAgree(l, f.key, bo);
        assert theirs[bo.id] == bo;
      }
    }
    forall f
      ensures !RemoteFinding(f, l, mine, theirs)
    {
      if f.key in theirs {
        assert KnownLocally(l, theirs[f.key].id);
      }
    }
  }

  lemma PositionsIff(l: Local, r: Remote)
    ensures PositionsQuiet(l, r) <==> PositionsMatch(l, r)
  {
    PositionsBySymbolShape(l.positions);
    PositionsBySymbolShape(r.positions);
    var mine, theirs := PositionsBySymbol(l.positions), PositionsBySymbol(r.positions);
    hide PositionsBySymbol, LastListed, Apart;
    if PositionsQuiet(l, r) {
      forall p | LastListed(l.positions, p)
        ensures exists q :: LastListed(r.positions, q) && PositionsAgree(p, q)
      {
        var s := p.symbol;
        assert !PositionFinding(PositionMissing(s), mine, theirs) && !PositionFinding(PositionQuantity(s), mine, theirs)
               && !PositionFinding(PositionPrice(s), mine, theirs);
        assert PositionsAgree(p, theirs[s]);
      }
      forall q | LastListed(r.positions, q)
        ensures exists p :: LastListed(l.positions, p) && PositionsAgree(p, q)
      {
        var s := q.symbol;
        assert !PositionFinding(UnexpectedPosition(s), mine, theirs) && !PositionFinding(EmptyPosition(s), mine, theirs)
               && !PositionFinding(PositionQuantity(s), mine, theirs)
               && !PositionFinding(PositionPrice(s), mine, theirs);
        assert PositionsAgree(mine[s], q);
      }
    }
    if PositionsMatch(l, r) {
      forall f
        ensures !PositionFinding(f, mine, theirs)
      {
        if f.key in mine {
          var q :| LastListed(r.positions, q) && PositionsAgree(mine[f.key], q);
          assert theirs[q.symbol] == q;
        }
        if f.key in theirs {
          var p :| LastListed(l.positions, p) && PositionsAgree(p, theirs[f.key]);
          assert mine[p.symbol] == p;
        }
      }
    }
  }

  lemma QuietParts(l: Local, r: Remote)
    ensures (forall f :: !Holds(f, l, r)) <==>
            ListsQuiet(l, r) && OrdersQuiet(l, OrdersById(l.orders), OrdersById(r.orders)) && PositionsQuiet(l, r)
  {
    hide ListFinding, OrderFinding, FillFinding, RemoteFinding, PositionFinding, OrdersById, PositionsBySymbol;
    if forall f :: !Holds(f, l, r) {
      forall f
        ensures !ListFinding(f, l, r)
        ensures !OrderFinding(f, l, OrdersById(l.orders), OrdersById(r.orders))
        ensures !FillFinding(f, l, OrdersById(r.orders))
        ensures !RemoteFinding(f, l, OrdersById(l.orders), OrdersById(r.orders))
        ensures !PositionFinding(f, PositionsBySymbol(l.positions), PositionsBySymbol(r.positions))
      {
        assert !Holds(f, l, r);
      }
    }
  }

  lemma NothingHoldsIff(l: Local, r: Remote)
    ensures (forall f :: !Holds(f, l, r)) <==> Agreement(l, r)
  {
    hide Holds, ListFinding, PositionFinding, OrdersById, PositionsBySymbol, OrdersQuiet, OrdersMatch, PositionsMatch,
         DistinctNonblank;
    QuietParts(l, r);
    ListsIff(l, r);
    PositionsIff(l, r);
    if DistinctNonblank(r.orders) && DistinctNonblank(l.orders) {
      OrdersIff(l, r);
    }
  }
}
