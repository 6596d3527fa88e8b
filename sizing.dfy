/** The per-symbol sizing rule of the tiered short-selling algorithm: how far
    the price has risen since the previous close picks one of three tiers, the
    VIX may replace the base volume, and the order is capped by the tier's
    target, by a per-symbol short cap and by what is left of the day's budget.
    Prices, NAV and ratios are exact reals; a NaN VIX reading is `None`. */
module Sizing {
  import opened PyValues

  type Symbol = string

  /** One entry of the layer configuration: three rise thresholds in percent,
      the full-tier volume as a fraction of NAV and an optional per-symbol cap. */
  datatype LayerConf = LayerConf(sigma0: real, sigma1: real, sigma2: real, volume: real,
                                 maxShortRatio: Option<real>)

  /** The VIX override: above `threshold` every symbol uses `highVolume`. */
  datatype VixPolicy = VixPolicy(threshold: real, highVolume: real)

  /** What the algorithm does with one symbol: nothing, or sell `shares` at
      `price` in tier `layer`. */
  datatype Decision = Skip | Sell(shares: nat, layer: nat, price: real)

  /** The notional of a sale, `shares * price`. */
  function Notional(d: Decision): real
    requires d.Sell?
  {
    d.shares as real * d.price
  }

  /** `conf.get('max_short_ratio', 0.50)`. */
  const DefaultMaxShortRatio: real := 0.50

  /** The guard that keeps NAV positive: `max(nav, 1e-9)`. */
  const NavFloor: real := 0.000000001

  function Max(a: real, b: real): real { if a >= b then a else b }
  function Min(a: real, b: real): real { if a <= b then a else b }

  /** `max(total_portfolio_value, 1e-9)`. */
  function TotalValue(nav: real): (v: real)
    ensures v >= nav && v >= NavFloor && (v == nav || v == NavFloor)
  {
    Max(nav, NavFloor)
  }

  /** What is left of the day's budget: `max(daily_limit - daily_used, 0.0)`. */
  function DayCap(limit: real, used: real): (c: real)
    ensures c >= 0.0 && c >= limit - used
    ensures used <= limit ==> c == limit - used
    ensures used >= limit ==> c == 0.0
  {
    Max(limit - used, 0.0)
  }

  /** `_effective_volume`: a VIX reading strictly above the threshold replaces
      the base volume by the high volume; a missing (NaN) reading or one at or
      below the threshold keeps the base volume. */
  function EffectiveVolume(base: real, vix: Option<real>, policy: VixPolicy): (v: real)
    ensures vix.Some? && vix.value > policy.threshold ==> v == policy.highVolume
    ensures vix.None? || vix.value <= policy.threshold ==> v == base
  {
    if vix.Some? && vix.value > policy.threshold then policy.highVolume else base
  }

  /** The day's rise in percent, `(price - pre) / pre * 100`. */
  function Rise(pre: real, price: real): real
    requires pre > 0.0
  {
    (price - pre) / pre * 100.0
  }

  /** The tier of a rise that has reached `sigma0`. */
  function Layer(diff: real, conf: LayerConf): (layer: nat)
    ensures 1 <= layer <= 3
  {
    if diff < conf.sigma1 then 1 else if diff < conf.sigma2 then 2 else 3
  }

  /** The tier's share of the effective volume: a third, two thirds or all. */
  function TargetFraction(layer: nat, volume: real): real {
    if layer == 1 then volume / 3.0 else if layer == 2 then volume * 2.0 / 3.0 else volume
  }

  /** The tiers are half-open intervals: a rise exactly at a threshold
      belongs to the higher tier. */
  lemma LayerIsHalfOpen(diff: real, conf: LayerConf)
    requires conf.sigma1 <= conf.sigma2
    ensures Layer(diff, conf) == 1 <==> diff < conf.sigma1
    ensures Layer(diff, conf) == 2 <==> conf.sigma1 <= diff < conf.sigma2
    ensures Layer(diff, conf) == 3 <==> conf.sigma2 <= diff
  {
  }

  /** A larger rise never gets a smaller tier, nor, for a non-negative volume,
      a smaller target fraction. */
  lemma LayerIsMonotone(d1: real, d2: real, conf: LayerConf, volume: real)
    requires d1 <= d2 && volume >= 0.0
    ensures Layer(d1, conf) <= Layer(d2, conf)
    ensures TargetFraction(Layer(d1, conf), volume) <= TargetFraction(Layer(d2, conf), volume)
  {
  }

  /** The notional already shorted: `abs(quantity) * price` for a short. */
  function CurrentShortValue(quantity: int, price: real): (v: real)
    ensures v >= 0.0 || price <= 0.0
    ensures quantity >= 0 ==> v == 0.0
  {
    if quantity < 0 && price > 0.0 then (-quantity) as real * price else 0.0
  }

  /** `int(x // price)` for a non-negative `x` and a positive price. */
  function SharesWithin(x: real, price: real): int
    requires price > 0.0
  {
    (x / price).Floor
  }

  /** Whole shares bought with at most `x`: none negative, none over budget,
      and one more share would be over budget. */
  lemma SharesWithinBound(x: real, price: real)
    requires price > 0.0 && x >= 0.0
    ensures SharesWithin(x, price) >= 0
    ensures SharesWithin(x, price) as real * price <= x
    ensures (SharesWithin(x, price) + 1) as real * price > x
  {
    var n := SharesWithin(x, price);
    var q := x / price;
    var m: real := (n + 1) as real;
    assert q >= 0.0;
    assert n as real <= q < m;
    assert (q - n as real) * price >= 0.0;
    var slack, spent := (m - q) * price, q * price;
    assert slack > 0.0;
    assert spent == x;
    assert m * price == slack + spent;
  }

  /** The smaller of two whole-share counts fits both budgets, is positive
      in notional when positive in shares, and one more share exceeds the
      smaller budget. */
  lemma FewerSharesMaximal(x: real, y: real, price: real)
    requires price > 0.0 && x >= 0.0 && y >= 0.0
    ensures var a, b := SharesWithin(x, price), SharesWithin(y, price);
            var n := if a <= b then a else b;
            && n >= 0
            && n as real * price <= x && n as real * price <= y
            && (n > 0 ==> n as real * price > 0.0)
            && (n + 1) as real * price > Min(x, y)
  {
    SharesWithinBound(x, price);
    SharesWithinBound(y, price);
    var a, b := SharesWithin(x, price), SharesWithin(y, price);
    var n := if a <= b then a else b;
    assert (a - n) as real * price >= 0.0;
    assert (b - n) as real * price >= 0.0;
    assert n > 0 ==> n as real * price > 0.0;
  }

  /** Lines 296-322: the shares a sale may take, 0 when one of the caps is
      already reached. The addition must fit under the tier target and the
      per-symbol cap, and its notional under what is left of the day; it is
      the largest such number, since one more share would break one of them. */
  function Shares(current: real, targetValue: real, maxShortValue: real, dayCap: real, price: real): (n: int)
    requires price > 0.0 && dayCap >= 0.0
    ensures n >= 0
    ensures n > 0 ==> 0.0 < n as real * price <= dayCap
    ensures n > 0 ==> current + n as real * price <= targetValue
    ensures n > 0 ==> current + n as real * price <= maxShortValue
    ensures (n + 1) as real * price > Min(Min(targetValue, maxShortValue) - current, dayCap)
  {
    var remainingSymbolCap := Max(0.0, maxShortValue - current);
    if remainingSymbolCap <= 0.0 then 0
    else
      var wanted := Max(0.0, targetValue - current);
      if wanted <= 0.0 then 0
      else
        var addValue := Min(wanted, remainingSymbolCap);
        if addValue <= 0.0 then 0
        else
          var byTarget, byDay := SharesWithin(addValue, price), SharesWithin(dayCap, price);
          FewerSharesMaximal(addValue, dayCap, price);
          var n := if byTarget <= byDay then byTarget else byDay;
          assert addValue == Min(targetValue, maxShortValue) - current;
          if n <= 0 then 0 else n
  }

  /** The tier target of line 286. */
  function TargetValue(totalValue: real, diff: real, conf: LayerConf, vix: Option<real>, policy: VixPolicy): real {
    totalValue * TargetFraction(Layer(diff, conf), EffectiveVolume(conf.volume, vix, policy))
  }

  /** The per-symbol cap of line 297. */
  function MaxShortValue(totalValue: real, conf: LayerConf): real {
    totalValue * conf.maxShortRatio.GetOr(DefaultMaxShortRatio)
  }

  /** Lines 252-315 for one symbol: `conf` is the layer configuration of its
      ticker, `pre` its previous close, `price` its price (`None` when the
      symbol is not among the securities), `quantity` its holding. A sale
      needs a valid close and price and a rise of at least `sigma0`; it is
      in the rise's tier and its notional fits in the day's budget, and with
      what is already shorted within the tier target and the per-symbol cap. */
  function Decide(symbol: Symbol, conf: Option<LayerConf>, pre: Option<real>, price: Option<real>,
                  quantity: int, totalValue: real, dayCap: real, vix: Option<real>,
                  policy: VixPolicy): (r: Result<Decision>)
    requires dayCap >= 0.0
    ensures r.Err? <==> conf.Some? && pre.Some? && pre.value > 0.0 && price.None?
    ensures r.Err? ==> r.error == KeyError(symbol)
    ensures r.Ok? && r.value.Sell? ==>
              && conf.Some? && pre.Some? && pre.value > 0.0 && price == Some(r.value.price)
              && r.value.price > 0.0 && r.value.shares > 0
    ensures r.Ok? && r.value.Sell? ==>
              var d, c := r.value, conf.value;
              var diff := Rise(pre.value, d.price);
              var spend := Notional(d);
              var current := CurrentShortValue(quantity, d.price);
              && diff >= c.sigma0 && d.layer == Layer(diff, c)
              && 0.0 < spend <= dayCap
              && current + spend <= TargetValue(totalValue, diff, c, vix, policy)
              && current + spend <= MaxShortValue(totalValue, c)
    ensures conf.Some? && pre.Some? && pre.value > 0.0 && price.Some? && price.value > 0.0
            && Rise(pre.value, price.value) >= conf.value.sigma0 ==>
              var c, p := conf.value, price.value;
              var diff := Rise(pre.value, p);
              var n := Shares(CurrentShortValue(quantity, p), TargetValue(totalValue, diff, c, vix, policy),
                              MaxShortValue(totalValue, c), dayCap, p);
              r == if n > 0 then Ok(Sell(n, Layer(diff, c), p)) else Ok(Skip)
  {
    if conf.None? then Ok(Skip)
    else if pre.None? || pre.value <= 0.0 then Ok(Skip)
    else if price.None? then Err(KeyError(symbol))
    else if price.value <= 0.0 then Ok(Skip)
    else
      var c, p := conf.value, price.value;
      var diff := Rise(pre.value, p);
      if diff < c.sigma0 then Ok(Skip)
      else
        var n := Shares(CurrentShortValue(quantity, p), TargetValue(totalValue, diff, c, vix, policy),
                        MaxShortValue(totalValue, c), dayCap, p);
        if n <= 0 then Ok(Skip) else Ok(Sell(n, Layer(diff, c), p))
  }

  /** When what is left of the day is below what the tier target and the
      per-symbol cap leave room for, the day's budget alone sets the size. */
  lemma DayCapBinds(current: real, targetValue: real, maxShortValue: real, dayCap: real, price: real)
    requires price > 0.0 && 0.0 <= dayCap <= Min(targetValue, maxShortValue) - current
    ensures Shares(current, targetValue, maxShortValue, dayCap, price) == SharesWithin(dayCap, price)
  {
    var room := Min(targetValue, maxShortValue) - current;
    SharesWithinMonotone(dayCap, room, price);
  }

  /** And when the room under the target and the cap is the smaller, it sets
      the size. */
  lemma TargetBinds(current: real, targetValue: real, maxShortValue: real, dayCap: real, price: real)
    requires price > 0.0 && 0.0 <= Min(targetValue, maxShortValue) - current <= dayCap
    ensures Shares(current, targetValue, maxShortValue, dayCap, price)
            == SharesWithin(Min(targetValue, maxShortValue) - current, price)
  {
    var room := Min(targetValue, maxShortValue) - current;
    SharesWithinMonotone(room, dayCap, price);
  }

  /** Fewer funds never buy more whole shares. */
  lemma SharesWithinMonotone(x: real, y: real, price: real)
    requires price > 0.0 && 0.0 <= x <= y
    ensures 0 <= SharesWithin(x, price) <= SharesWithin(y, price)
  {
    SharesWithinBound(x, price);
    SharesWithinBound(y, price);
    assert y / price - x / price == (y - x) / price;
    assert (y - x) / price >= 0.0;
  }

  /** A worked case: NAV 1,000,000, thresholds 1.83/3.72/7.50 %, volume 10 %,
      cap 30 %, no short yet, a rise of exactly 4 % to a price of 10 (a
      previous close of 125/13) and no VIX reading. The rise is in tier 2,
      whose target is two thirds of 10 % of NAV, 66,666.67, so the sale is
      6,666 shares; with only 1,000 left of the day it is 100 shares. */
  lemma TierTwoExample()
    ensures var conf := LayerConf(1.83, 3.72, 7.50, 0.10, Some(0.30));
            var policy := VixPolicy(30.0, 0.20);
            && Rise(125.0 / 13.0, 10.0) == 4.0
            && Decide("XYZ", Some(conf), Some(125.0 / 13.0), Some(10.0), 0, 1000000.0, 1000000.0, None, policy)
               == Ok(Sell(6666, 2, 10.0))
            && Decide("XYZ", Some(conf), Some(125.0 / 13.0), Some(10.0), 0, 1000000.0, 1000.0, None, policy)
               == Ok(Sell(100, 2, 10.0))
  {
    var conf := LayerConf(1.83, 3.72, 7.50, 0.10, Some(0.30));
    var policy := VixPolicy(30.0, 0.20);
    assert Rise(125.0 / 13.0, 10.0) == 4.0;
    assert Layer(4.0, conf) == 2;
    var target := TargetValue(1000000.0, 4.0, conf, None, policy);
    assert target == 200000.0 / 3.0;
    assert MaxShortValue(1000000.0, conf) == 300000.0;
    assert SharesWithin(target, 10.0) == 6666 by {
      assert target / 10.0 == 20000.0 / 3.0;
      assert 6666.0 <= 20000.0 / 3.0 < 6667.0;
    }
    TargetBinds(0.0, target, 300000.0, 1000000.0, 10.0);
    DayCapBinds(0.0, target, 300000.0, 1000.0, 10.0);
    assert SharesWithin(1000.0, 10.0) == 100;
  }
}
