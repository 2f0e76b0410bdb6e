// Transaction costs and slippage: backtest/costs.py and the pricing half of backtest/broker_sim.py.

module Costs {
  import opened Trading

  datatype CostConfig = CostConfig(
    brokerageRate: real, brokerageMin: real, sttSell: real, sttBuy: real, exchangeRate: real,
    gstRate: real, stampBuy: real, stampSell: real, sebiRate: real)

  // equity_delivery_v1, the only registered cost model.
  const EQUITY_DELIVERY := CostConfig(0.0003, 0.0, 0.001, 0.0, 0.0000297, 0.18, 0.00015, 0.0, 0.000001)

  datatype CostBreakdown = CostBreakdown(
    brokerage: real, stt: real, exchange: real, gst: real, stamp: real, sebi: real)

  function Total(c: CostBreakdown): real {
    c.brokerage + c.stt + c.exchange + c.gst + c.stamp + c.sebi
  }

  function Max(a: real, b: real): real {
    if a >= b then a else b
  }

  function Compute(cfg: CostConfig, side: Side, quantity: real, price: real): CostBreakdown {
    var turnover := Value(quantity, price);
    var brokerage := Max(turnover * cfg.brokerageRate, cfg.brokerageMin);
    var exchange := turnover * cfg.exchangeRate;
    CostBreakdown(
      brokerage,
      turnover * (if side == Buy then cfg.sttBuy else cfg.sttSell),
      exchange,
      (brokerage + exchange) * cfg.gstRate,
      turnover * (if side == Buy then cfg.stampBuy else cfg.stampSell),
      turnover * cfg.sebiRate)
  }

  function CostOf(cfg: CostConfig, side: Side, quantity: real, price: real): real {
    Total(Compute(cfg, side, quantity, price))
  }

  predicate NonNegativeRates(cfg: CostConfig) {
    && cfg.brokerageRate >= 0.0 && cfg.brokerageMin >= 0.0 && cfg.sttSell >= 0.0 && cfg.sttBuy >= 0.0
    && cfg.exchangeRate >= 0.0 && cfg.gstRate >= 0.0 && cfg.stampBuy >= 0.0 && cfg.stampSell >= 0.0
    && cfg.sebiRate >= 0.0
  }

  // The fraction of a sale's value taken when the brokerage is proportional.
  function SellRate(cfg: CostConfig): real {
    cfg.brokerageRate * (1.0 + cfg.gstRate) + OtherRate(cfg)
  }

  // The fraction taken by everything but the brokerage, and what the least brokerage takes.
  function OtherRate(cfg: CostConfig): real {
    cfg.exchangeRate * (1.0 + cfg.gstRate) + cfg.sttSell + cfg.stampSell + cfg.sebiRate
  }

  function Floor(cfg: CostConfig): real {
    cfg.brokerageMin * (1.0 + cfg.gstRate)
  }

  // Checkable from the configuration alone, whatever the signs of its rates: neither the proportional charges nor the
  // least brokerage exceed the value of a sale, or, when a negative tax turns the larger brokerage into the smaller
  // charge, not both.
  predicate SellsCovered(cfg: CostConfig) {
    var proportional := SellRate(cfg) <= 1.0;
    var least := OtherRate(cfg) <= 1.0 && Floor(cfg) <= 0.0;
    if cfg.gstRate >= -1.0 then proportional && least else proportional || least
  }

  lemma CostNonNegative(cfg: CostConfig, side: Side, quantity: real, price: real)
    requires NonNegativeRates(cfg) && quantity > 0.0 && price > 0.0
    ensures CostOf(cfg, side, quantity, price) >= 0.0
  {
    var t := Value(quantity, price);
    var c := Compute(cfg, side, quantity, price);
    ProductNonNegative(t, cfg.brokerageRate);
    ProductNonNegative(t, cfg.exchangeRate);
    ProductNonNegative(t, cfg.sttBuy);
    ProductNonNegative(t, cfg.sttSell);
    ProductNonNegative(t, cfg.stampBuy);
    ProductNonNegative(t, cfg.stampSell);
    ProductNonNegative(t, cfg.sebiRate);
    ProductNonNegative(c.brokerage + c.exchange, cfg.gstRate);
  }

  lemma ProductNonNegative(a: real, b: real)
    requires a >= 0.0 && b >= 0.0
    ensures a * b >= 0.0
  {
  }

  // The cost of a sale worth t.
  function SellCost(cfg: CostConfig, t: real): real {
    Max(t * cfg.brokerageRate, cfg.brokerageMin) * (1.0 + cfg.gstRate) + t * OtherRate(cfg)
  }

  lemma SellCostFormula(cfg: CostConfig, quantity: real, price: real)
    ensures CostOf(cfg, Sell, quantity, price) == SellCost(cfg, Value(quantity, price))
  {
    var t, ex, g := Value(quantity, price), cfg.exchangeRate, cfg.gstRate;
    var c := Compute(cfg, Sell, quantity, price);
    var br := c.brokerage;
    assert (br + t * ex) * g == br * g + (t * ex) * g;
    Associate(t, ex, g);
    assert ex * (1.0 + g) == ex + ex * g && br * (1.0 + g) == br + br * g;
    DistributeFive(t, ex, ex * g, cfg.sttSell, cfg.stampSell, cfg.sebiRate);
  }

  lemma Associate(a: real, b: real, c: real)
    ensures (a * b) * c == a * (b * c)
  {
  }

  lemma DistributeFive(t: real, a: real, b: real, c: real, d: real, e: real)
    ensures t * (a + b + c + d + e) == t * a + t * b + t * c + t * d + t * e
  {
  }

  function ChargeOf(taxed: bool, a: real, b: real): real {
    if taxed then Max(a, b) else if a >= b then b else a
  }

  // The larger brokerage is the larger charge exactly when the tax leaves its sign alone.
  lemma SellCostBranches(cfg: CostConfig, t: real)
    ensures SellCost(cfg, t) == ChargeOf(cfg.gstRate >= -1.0, t * SellRate(cfg), Floor(cfg) + t * OtherRate(cfg))
  {
    hide OtherRate;
    var br, m, k := t * cfg.brokerageRate, cfg.brokerageMin, 1.0 + cfg.gstRate;
    Associate(t, cfg.brokerageRate, k);
    assert t * SellRate(cfg) == t * (cfg.brokerageRate * k) + t * OtherRate(cfg);
    ScaledOrder(br, m, k);
  }

  lemma ScaledOrder(a: real, b: real, k: real)
    ensures k >= 0.0 && a >= b ==> a * k >= b * k
    ensures k >= 0.0 && a <= b ==> a * k <= b * k
    ensures k < 0.0 && a >= b ==> a * k <= b * k
    ensures k < 0.0 && a <= b ==> a * k >= b * k
  {
    assert a * k - b * k == (a - b) * k;
  }

  // A sale never costs more than it brings in, for every quantity and price, exactly under SellsCovered.
  lemma SellCostsCoveredIff(cfg: CostConfig)
    ensures SellsCovered(cfg) <==>
            forall q: real, p: real :: q > 0.0 && p > 0.0 ==> CostOf(cfg, Sell, q, p) <= Value(q, p)
  {
    if SellsCovered(cfg) {
      forall q: real, p: real | q > 0.0 && p > 0.0
        ensures CostOf(cfg, Sell, q, p) <= Value(q, p)
      {
        SellCostAtMostProceeds(cfg, q, p);
      }
    } else {
      var t := DearSale(cfg);
      SellCostFormula(cfg, t, 1.0);
      assert CostOf(cfg, Sell, t, 1.0) > Value(t, 1.0);
    }
    hide CostOf, Value, SellCost;
  }

  // A sale that costs more than it is worth.
  lemma DearSale(cfg: CostConfig) returns (t: real)
    requires !SellsCovered(cfg)
    ensures t > 0.0 && SellCost(cfg, t) > t && Value(t, 1.0) == t
  {
    hide SellCost, SellRate, OtherRate, Floor;
    var least := OtherRate(cfg) <= 1.0 && Floor(cfg) <= 0.0;
    if least {
      t := 1.0;
    } else {
      t := Excess(Floor(cfg), OtherRate(cfg));
    }
    SellCostBranches(cfg, t);
    if SellRate(cfg) > 1.0 {
      TimesMore(t, SellRate(cfg));
    }
  }

  lemma TimesMore(t: real, rate: real)
    requires t > 0.0 && rate > 1.0
    ensures t * rate > t
  {
    assert t * (rate - 1.0) > 0.0;
  }

  // A sale small or large enough that a flat charge and a rate take more than it brings in.
  lemma Excess(flat: real, rate: real) returns (t: real)
    requires rate > 1.0 || flat > 0.0
    ensures t > 0.0 && flat + t * rate > t
  {
    if rate <= 1.0 {
      t := flat / (2.0 - rate);
      Quotient(flat, 2.0 - rate);
      assert t * rate == 2.0 * t - t * (2.0 - rate);
    } else if flat > 0.0 {
      t := 1.0;
    } else {
      t := (1.0 - flat) / (rate - 1.0);
      Quotient(1.0 - flat, rate - 1.0);
      assert t * rate == t * (rate - 1.0) + t;
    }
  }

  lemma Quotient(a: real, b: real)
    requires a > 0.0 && b > 0.0
    ensures a / b > 0.0 && (a / b) * b == a
  {
  }

  lemma AtMostWhole(t: real, rate: real)
    requires t > 0.0 && rate <= 1.0
    ensures t * rate <= t
  {
    ProductNonNegative(t, 1.0 - rate);
    assert t * (1.0 - rate) == t - t * rate;
  }

  lemma SellCostCovered(cfg: CostConfig, t: real)
    requires SellsCovered(cfg) && t > 0.0
    ensures SellCost(cfg, t) <= t
  {
    SellCostBranches(cfg, t);
    hide SellCost, SellRate, OtherRate, Floor;
    if SellRate(cfg) <= 1.0 {
      AtMostWhole(t, SellRate(cfg));
    }
    if OtherRate(cfg) <= 1.0 {
      AtMostWhole(t, OtherRate(cfg));
    }
  }

  lemma SellCostAtMostProceeds(cfg: CostConfig, q: real, p: real)
    requires SellsCovered(cfg) && q > 0.0 && p > 0.0
    ensures CostOf(cfg, Sell, q, p) <= Value(q, p)
  {
    hide *;
    ValuePositive(q, p);
    SellCostFormula(cfg, q, p);
    SellCostCovered(cfg, Value(q, p));
  }

  lemma DefaultCostsCovered()
    ensures SellsCovered(EQUITY_DELIVERY)
  {
  }

  datatype Quote = Quote(price: real, slippagePerUnit: real)

  // SlippageModel.apply: adverse to the taker.
  function Slip(bps: real, side: Side, price: real): Quote {
    var slip := price * (bps / 10000.0);
    if side == Buy then Quote(price + slip, slip) else Quote(price - slip, -slip)
  }

  // A positive reference price stays positive after slippage exactly when the slippage is under 100 percent.
  lemma SlipPositive(bps: real, side: Side, price: real)
    requires bps >= 0.0 && price > 0.0
    ensures Slip(bps, side, price).price > 0.0 <==> side == Buy || bps < 10000.0
  {
    var r := bps / 10000.0;
    if side == Sell {
      assert price - price * r == price * (1.0 - r);
      if bps < 10000.0 {
        assert 1.0 - r > 0.0;
        assert price * (1.0 - r) > 0.0;
      } else {
        ProductNonNegative(price, r - 1.0);
        assert price * (r - 1.0) == -(price * (1.0 - r));
      }
    } else {
      ProductNonNegative(price, r);
    }
  }
}
