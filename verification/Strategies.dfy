// Conditions on a strategy that a caller can check without running an engine: strategies/base.py.

module Strategies {
  import opened Trading

  ghost predicate TradesContextSymbol(strategy: Strategy) {
    forall cs: seq<Context> :: cs != [] && strategy(cs).Decision? ==>
      forall o :: o in strategy(cs).orders ==> o.symbol == cs[|cs| - 1].symbol
  }

  ghost predicate LotsAbove(strategy: Strategy, least: real) {
    forall cs: seq<Context> :: strategy(cs).Decision? ==>
      forall o :: o in strategy(cs).orders ==> o.quantity > least
  }

  ghost predicate LotsAboveTolerance(strategy: Strategy) {
    LotsAbove(strategy, EPS9)
  }

  // What the Order constructor enforces.
  ghost predicate PositiveLots(strategy: Strategy) {
    LotsAbove(strategy, 0.0)
  }

  ghost predicate NeverRaises(strategy: Strategy) {
    forall cs: seq<Context> :: strategy(cs).Decision?
  }

  ghost predicate AtMostOneOrder(strategy: Strategy) {
    forall cs: seq<Context> :: strategy(cs).Decision? ==> |strategy(cs).orders| <= 1
  }

  ghost predicate MarketOrdersOnly(strategy: Strategy) {
    forall cs: seq<Context> :: strategy(cs).Decision? ==>
      forall o :: o in strategy(cs).orders ==> o.orderType == Market
  }
}
