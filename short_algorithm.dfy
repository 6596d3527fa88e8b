/** The tiered short-selling algorithm: its daily budget, the symbol loop that
    places the sigma-tiered short orders, the 10% take-profit cover, the order
    event bookkeeping and the 15-minute gate. The brokerage is an input: what
    it reports at one moment is a `Market`, and `market_order` appends to the
    `orders` the algorithm has placed. */
module ShortAlgorithm {
  import opened PyValues
  import opened Sizing
  import opened OrderEvents

  /** One subscribed ticker and its equity symbol. */
  datatype PoolEntry = PoolEntry(ticker: string, symbol: Symbol)

  /** `market_order(symbol, quantity, tag=tag)`. */
  datatype Order = Order(symbol: Symbol, quantity: int, tag: string)

  /** What the brokerage reports: NAV, the price of every security, the held
      quantities (absent means none) and the VIX reading (`None` when it is
      NaN or not subscribed). */
  datatype Market = Market(nav: real, prices: map<Symbol, real>, quantities: map<Symbol, int>, vix: Option<real>)

  /** A security as the take-profit check sees it. */
  datatype SecurityView = SecurityView(symbol: Symbol, isEquity: bool, quantity: int,
                                       unrealizedProfitPercent: Option<real>)

  /** Everything the symbol loop reads besides the budget used so far. */
  datatype SweepInputs = SweepInputs(cfg: map<string, LayerConf>, preclose: map<Symbol, real>,
                                     market: Market, limit: real, policy: VixPolicy)

  /** The budget used, the orders placed and the exception raised by a run of
      the symbol loop. */
  datatype Outcome = Outcome(used: real, orders: seq<Order>, error: Option<PyError>)

  const DailyLimitRatio: real := 0.30
  const VixThreshold: real := 30.0
  const VixHighVolume: real := 0.40
  const TakeProfit: real := 0.10
  const CoverTag: string := "COVER_TP10"

  /** The layer configuration the algorithm starts with. */
  const LayerConfig: map<string, LayerConf> :=
    map["SQQQ" := LayerConf(1.83, 3.72, 7.50, 0.10, Some(0.30)),
        "SOXS" := LayerConf(3.18, 6.51, 13.20, 0.10, Some(0.30)),
        "SPXU" := LayerConf(1.59, 3.24, 6.54, 0.10, Some(0.30)),
        "SBIT" := LayerConf(4.10, 8.16, 16.28, 0.10, Some(0.2)),
        "YANG" := LayerConf(2.43, 4.86, 9.72, 0.10, Some(0.2))]

  /** `tag=f"SHORT_SIGMA_L{layer}"`. */
  function LayerTag(layer: nat): string {
    if layer == 1 then "SHORT_SIGMA_L1" else if layer == 2 then "SHORT_SIGMA_L2" else "SHORT_SIGMA_L3"
  }

  /** `m.get(k, None)`. */
  function Lookup<K, V>(m: map<K, V>, k: K): Option<V> {
    if k in m then Some(m[k]) else None
  }

  function Quantity(m: Market, s: Symbol): int {
    if s in m.quantities then m.quantities[s] else 0
  }

  /** The decision for one pool entry with `used` of the budget spent. */
  function DecideFor(inputs: SweepInputs, e: PoolEntry, used: real): Result<Decision> {
    Decide(e.symbol, Lookup(inputs.cfg, e.ticker), Lookup(inputs.preclose, e.symbol),
           Lookup(inputs.market.prices, e.symbol), Quantity(inputs.market, e.symbol),
           TotalValue(inputs.market.nav), DayCap(inputs.limit, used), inputs.market.vix, inputs.policy)
  }

  /** `DecideFor` with the inputs fixed: the loop below is stated over any
      decision rule, and the facts it needs of the rule are `Sound`. */
  function Decider(inputs: SweepInputs): (PoolEntry, real) -> Result<Decision> {
    (e: PoolEntry, used: real) => DecideFor(inputs, e, used)
  }

  /** A decision rule that sells only priced symbols, a positive number of
      shares at their price, within what is left of the day's budget. */
  ghost predicate Sound(decide: (PoolEntry, real) -> Result<Decision>, limit: real, prices: map<Symbol, real>) {
    forall e, used :: decide(e, used).Ok? && decide(e, used).value.Sell? ==>
      var d := decide(e, used).value;
      && e.symbol in prices && prices[e.symbol] == d.price && d.price > 0.0 && d.shares > 0
      && 1 <= d.layer <= 3
      && 0.0 < Notional(d) <= DayCap(limit, used)
  }

  /** The sizing rule of the algorithm is sound. */
  lemma DeciderIsSound(inputs: SweepInputs)
    ensures Sound(Decider(inputs), inputs.limit, inputs.market.prices)
  {
    forall e, used | Decider(inputs)(e, used).Ok? && Decider(inputs)(e, used).value.Sell?
      ensures var d := Decider(inputs)(e, used).value;
              && e.symbol in inputs.market.prices && inputs.market.prices[e.symbol] == d.price
              && d.price > 0.0 && d.shares > 0 && 1 <= d.layer <= 3
              && 0.0 < Notional(d) <= DayCap(inputs.limit, used)
    {
      assert Decider(inputs)(e, used) == DecideFor(inputs, e, used);
    }
  }

  /** The symbol loop of lines 246-329 over `pool`, starting with `used` of
      the budget spent; the budget left is recomputed after every order. */
  function Sweep(decide: (PoolEntry, real) -> Result<Decision>, pool: seq<PoolEntry>, used: real): Outcome
    decreases |pool|
  {
    if pool == [] then Outcome(used, [], None)
    else
      var d := decide(pool[0], used);
      if d.Err? then Outcome(used, [], Some(d.error))
      else if d.value.Skip? then Sweep(decide, pool[1..], used)
      else
        var order := Order(pool[0].symbol, -(d.value.shares as int), LayerTag(d.value.layer));
        var rest := Sweep(decide, pool[1..], used + Notional(d.value));
        Outcome(rest.used, [order] + rest.orders, rest.error)
  }

  /** What `market_order` spends on a short order at the reported price. */
  function OrderNotional(o: Order, prices: map<Symbol, real>): real
    requires o.symbol in prices
  {
    (-o.quantity) as real * prices[o.symbol]
  }

  /** The notional of a run of short orders at the reported prices. */
  function Spent(orders: seq<Order>, prices: map<Symbol, real>): real
    requires forall i :: 0 <= i < |orders| ==> orders[i].symbol in prices
    decreases |orders|
  {
    if orders == [] then 0.0 else OrderNotional(orders[0], prices) + Spent(orders[1..], prices)
  }

  /** A short sale of a priced symbol, tagged with one of the three tiers. */
  predicate IsShortOrder(o: Order, prices: map<Symbol, real>) {
    && o.symbol in prices && prices[o.symbol] > 0.0 && o.quantity < 0
    && (o.tag == LayerTag(1) || o.tag == LayerTag(2) || o.tag == LayerTag(3))
  }

  /** Every order of the loop sells a positive number of shares of a priced
      symbol and is tagged with its tier. */
  lemma {:induction false} SweepOrders(decide: (PoolEntry, real) -> Result<Decision>, limit: real,
                                       prices: map<Symbol, real>, pool: seq<PoolEntry>, used: real)
    requires Sound(decide, limit, prices)
    ensures forall o :: o in Sweep(decide, pool, used).orders ==> IsShortOrder(o, prices)
    decreases |pool|
  {
    if pool != [] {
      var d := decide(pool[0], used);
      if d.Err? {
        assert Sweep(decide, pool, used).orders == [];
      } else if d.value.Skip? {
        SweepOrders(decide, limit, prices, pool[1..], used);
        assert Sweep(decide, pool, used) == Sweep(decide, pool[1..], used);
      } else {
        SweepOrders(decide, limit, prices, pool[1..], used + Notional(d.value));
        var order := Order(pool[0].symbol, -(d.value.shares as int), LayerTag(d.value.layer));
        var rest := Sweep(decide, pool[1..], used + Notional(d.value));
        assert Sweep(decide, pool, used).orders == [order] + rest.orders;
        assert IsShortOrder(order, prices) by {
          var l := d.value.layer;
          assert l == 1 || l == 2 || (l != 1 && l != 2);
        }
      }
    }
  }

  /** The budget used grows by exactly the notional of the orders placed, so
      it never decreases. */
  lemma {:induction false} SweepSpends(decide: (PoolEntry, real) -> Result<Decision>, limit: real,
                                       prices: map<Symbol, real>, pool: seq<PoolEntry>, used: real)
    requires Sound(decide, limit, prices)
    ensures var r := Sweep(decide, pool, used);
            && (forall i :: 0 <= i < |r.orders| ==> r.orders[i].symbol in prices)
            && r.used == used + Spent(r.orders, prices)
            && r.used >= used
    decreases |pool|
  {
    SweepOrders(decide, limit, prices, pool, used);
    if pool != [] {
      var d := decide(pool[0], used);
      if d.Ok? && d.value.Skip? {
        SweepSpends(decide, limit, prices, pool[1..], used);
      } else if d.Ok? {
        var spend := Notional(d.value);
        SweepSpends(decide, limit, prices, pool[1..], used + spend);
        var order := Order(pool[0].symbol, -(d.value.shares as int), LayerTag(d.value.layer));
        var rest := Sweep(decide, pool[1..], used + spend);
        assert Sweep(decide, pool, used).orders == [order] + rest.orders;
        assert ([order] + rest.orders)[1..] == rest.orders;
        assert OrderNotional(order, prices) == spend;
      }
    }
  }

  /** A budget that has not been overspent is never overspent by the loop:
      each order fits in what is left, and what is left is recomputed. */
  lemma {:induction false} SweepWithinLimit(decide: (PoolEntry, real) -> Result<Decision>, limit: real,
                                            prices: map<Symbol, real>, pool: seq<PoolEntry>, used: real)
    requires Sound(decide, limit, prices) && used <= limit
    ensures Sweep(decide, pool, used).used <= limit
    decreases |pool|
  {
    if pool != [] {
      var d := decide(pool[0], used);
      if d.Ok? && d.value.Skip? {
        SweepWithinLimit(decide, limit, prices, pool[1..], used);
      } else if d.Ok? {
        SweepWithinLimit(decide, limit, prices, pool[1..], used + Notional(d.value));
      }
    }
  }

  /** Once the day's budget is used up no further short order is placed. */
  lemma {:induction false} SweepExhausted(decide: (PoolEntry, real) -> Result<Decision>, limit: real,
                                          prices: map<Symbol, real>, pool: seq<PoolEntry>, used: real)
    requires Sound(decide, limit, prices) && used >= limit
    ensures Sweep(decide, pool, used).orders == []
    ensures Sweep(decide, pool, used).used == used
    decreases |pool|
  {
    if pool != [] {
      SweepExhausted(decide, limit, prices, pool[1..], used);
    }
  }

  /** Lines 211-229 over the securities, as a value. */
  function CoverOrders(secs: seq<SecurityView>): seq<Order>
    decreases |secs|
  {
    if secs == [] then []
    else
      var s := secs[0];
      var rest := CoverOrders(secs[1..]);
      if !s.isEquity || s.quantity >= 0 || s.unrealizedProfitPercent.None? then rest
      else if s.unrealizedProfitPercent.value >= TakeProfit then [Order(s.symbol, -s.quantity, CoverTag)] + rest
      else rest
  }

  /** A short equity holding at least 10% in profit. */
  predicate Profitable(s: SecurityView) {
    s.isEquity && s.quantity < 0 && s.unrealizedProfitPercent.Some? && s.unrealizedProfitPercent.value >= TakeProfit
  }

  /** The cover orders are exactly one buy-back of the whole short per
      profitable short equity, in the securities' order, tagged COVER_TP10. */
  lemma {:induction false} CoverOrdersExact(secs: seq<SecurityView>)
    ensures forall o :: o in CoverOrders(secs) ==>
              o.quantity > 0 && o.tag == CoverTag &&
              exists s :: s in secs && Profitable(s) && o == Order(s.symbol, -s.quantity, CoverTag)
    ensures forall s :: s in secs && Profitable(s) ==> Order(s.symbol, -s.quantity, CoverTag) in CoverOrders(secs)
    ensures |CoverOrders(secs)| <= |secs|
    decreases |secs|
  {
    if secs != [] {
      CoverOrdersExact(secs[1..]);
      forall o | o in CoverOrders(secs)
        ensures exists s :: s in secs && Profitable(s) && o == Order(s.symbol, -s.quantity, CoverTag)
      {
        if o !in CoverOrders(secs[1..]) {
          assert Profitable(secs[0]);
        } else {
          var s :| s in secs[1..] && Profitable(s) && o == Order(s.symbol, -s.quantity, CoverTag);
          assert s in secs;
        }
      }
      forall s | s in secs && Profitable(s) ensures Order(s.symbol, -s.quantity, CoverTag) in CoverOrders(secs) {
        if s != secs[0] {
          var i :| 0 <= i < |secs| && secs[i] == s;
          assert s in secs[1..] by { assert secs[1..][i - 1] == s; }
        }
      }
    }
  }

  /** The cover orders of two runs of securities follow each other: each
      security adds its own order, or none, where it stands. */
  lemma {:induction false} CoverOrdersAppend(a: seq<SecurityView>, b: seq<SecurityView>)
    ensures CoverOrders(a + b) == CoverOrders(a) + CoverOrders(b)
    decreases |a|
  {
    if a == [] {
      assert a + b == b;
    } else {
      assert (a + b)[1..] == a[1..] + b;
      CoverOrdersAppend(a[1..], b);
    }
  }

  /** One security adds exactly one buy-back of its whole short when it is
      profitable, and nothing otherwise. */
  lemma CoverOrdersOne(s: SecurityView)
    ensures CoverOrders([s]) == if Profitable(s) then [Order(s.symbol, -s.quantity, CoverTag)] else []
  {
    assert [s][1..] == [];
  }

  /** The VIX override the algorithm is configured with. */
  const Policy: VixPolicy := VixPolicy(VixThreshold, VixHighVolume)

  /** `pool_symbols.values()`. */
  function PoolSymbols(pool: seq<PoolEntry>): set<Symbol> {
    set e | e in pool :: e.symbol
  }

  /** The price marks of lines 193-196: one per pool symbol whose price is
      positive, in pool order (see `PricePlotsAppend`). */
  function PricePlots(pool: seq<PoolEntry>, prices: map<Symbol, real>): (ps: seq<Plot>)
    ensures |ps| <= |pool|
    ensures forall p :: p in ps ==> p.value > 0.0
    ensures forall p :: p in ps <==>
              exists e :: e in pool && e.symbol in prices && prices[e.symbol] > 0.0
                          && p == Plot(e.ticker + "_Price", prices[e.symbol])
    decreases |pool|
  {
    if pool == [] then []
    else
      var e := pool[0];
      assert forall x :: x in pool <==> x == e || x in pool[1..] by {
        assert pool == [e] + pool[1..];
      }
      (if e.symbol in prices && prices[e.symbol] > 0.0 then [Plot(e.ticker + "_Price", prices[e.symbol])] else [])
        + PricePlots(pool[1..], prices)
  }

  /** The marks of two runs of the pool follow each other: each entry adds
      its own mark, or none, where it stands. */
  lemma {:induction false} PricePlotsAppend(a: seq<PoolEntry>, b: seq<PoolEntry>, prices: map<Symbol, real>)
    ensures PricePlots(a + b, prices) == PricePlots(a, prices) + PricePlots(b, prices)
    decreases |a|
  {
    if a == [] {
      assert a + b == b;
    } else {
      assert (a + b)[1..] == a[1..] + b;
      PricePlotsAppend(a[1..], b, prices);
    }
  }

  /** One entry adds exactly its own mark when its price is positive. */
  lemma PricePlotsOne(e: PoolEntry, prices: map<Symbol, real>)
    ensures PricePlots([e], prices)
            == if e.symbol in prices && prices[e.symbol] > 0.0 then [Plot(e.ticker + "_Price", prices[e.symbol])] else []
  {
    assert [e][1..] == [];
  }

  /** The previous closes after `record_pool_pre_close` (lines 160-180) ran
      over `pool` starting from `kept`: each pool symbol whose last daily
      close is a positive number gets it; the others keep what they had. */
  function KeptCloses(kept: map<Symbol, real>, pool: seq<PoolEntry>, closes: map<Symbol, real>): map<Symbol, real>
    decreases |pool|
  {
    if pool == [] then kept
    else
      var e := pool[|pool| - 1];
      var m := KeptCloses(kept, pool[..|pool| - 1], closes);
      if e.symbol in closes && closes[e.symbol] > 0.0 then m[e.symbol := closes[e.symbol]] else m
  }

  /** A symbol has a close after the update exactly when it had one or it is
      a pool symbol with a positive close; the positive close wins. */
  lemma {:induction false} KeptClosesExact(kept: map<Symbol, real>, pool: seq<PoolEntry>, closes: map<Symbol, real>, s: Symbol)
    ensures var m, valid := KeptCloses(kept, pool, closes), s in PoolSymbols(pool) && s in closes && closes[s] > 0.0;
            && (s in m <==> s in kept || valid)
            && (valid ==> m[s] == closes[s])
            && (!valid && s in kept ==> m[s] == kept[s])
    decreases |pool|
  {
    if pool != [] {
      var init, e := pool[..|pool| - 1], pool[|pool| - 1];
      assert PoolSymbols(pool) == PoolSymbols(init) + {e.symbol} by {
        assert pool == init + [e];
      }
      KeptClosesExact(kept, init, closes, s);
    }
  }

  /** The loop of lines 162-180 over the pool, keeping each positive close. */
  method KeepCloses(kept0: map<Symbol, real>, pool: seq<PoolEntry>, closes: map<Symbol, real>)
    returns (kept: map<Symbol, real>)
    ensures kept == KeptCloses(kept0, pool, closes)
  {
    kept := kept0;
    var i := 0;
    while i < |pool|
      invariant 0 <= i <= |pool|
      invariant kept == KeptCloses(kept0, pool[..i], closes)
    {
      var e := pool[i];
      assert pool[..i + 1][..i] == pool[..i] && pool[..i + 1][i] == e;
      if e.symbol in closes && closes[e.symbol] > 0.0 {
        kept := kept[e.symbol := closes[e.symbol]];
      }
      i := i + 1;
    }
    assert pool[..|pool|] == pool;
  }

  /** The loop of lines 193-196 over the pool, marking each positive price. */
  method MarkPrices(pool: seq<PoolEntry>, prices: map<Symbol, real>) returns (marks: seq<Plot>)
    ensures marks == PricePlots(pool, prices)
  {
    marks := [];
    var i := 0;
    while i < |pool|
      invariant 0 <= i <= |pool|
      invariant marks == PricePlots(pool[..i], prices)
    {
      var e := pool[i];
      assert pool[..i + 1] == pool[..i] + [e];
      PricePlotsAppend(pool[..i], [e], prices);
      PricePlotsOne(e, prices);
      if e.symbol in prices && prices[e.symbol] > 0.0 {
        marks := marks + [Plot(e.ticker + "_Price", prices[e.symbol])];
      }
      i := i + 1;
    }
    assert pool[..|pool|] == pool;
  }

  /** The symbol loop of lines 246-329 with the algorithm's sizing rule,
      starting with `used0` of the budget spent: it computes `Sweep`. */
  method RunSweep(inputs: SweepInputs, pool: seq<PoolEntry>, used0: real) returns (r: Outcome)
    ensures r == Sweep(Decider(inputs), pool, used0)
  {
    ghost var decide := Decider(inputs);
    var m := inputs.market;
    var totalValue := TotalValue(m.nav);
    var used := used0;
    var remainingDayCap := DayCap(inputs.limit, used);
    var placed: seq<Order> := [];
    var i := 0;
    while i < |pool|
      invariant 0 <= i <= |pool|
      invariant remainingDayCap == DayCap(inputs.limit, used)
      invariant var rest := Sweep(decide, pool[i..], used);
                Sweep(decide, pool, used0) == Outcome(rest.used, placed + rest.orders, rest.error)
    {
      var e := pool[i];
      var d := Decide(e.symbol, Lookup(inputs.cfg, e.ticker), Lookup(inputs.preclose, e.symbol),
                      Lookup(m.prices, e.symbol), Quantity(m, e.symbol), totalValue, remainingDayCap,
                      m.vix, inputs.policy);
      assert d == decide(e, used);
      assert pool[i..][0] == e && pool[i..][1..] == pool[i + 1..];
      if d.Err? {
        return Outcome(used, placed, Some(d.error));
      }
      if d.value.Sell? {
        placed := placed + [Order(e.symbol, -(d.value.shares as int), LayerTag(d.value.layer))];
        used := used + Notional(d.value);
        remainingDayCap := DayCap(inputs.limit, used);
      }
      i := i + 1;
    }
    assert pool[i..] == [];
    r := Outcome(used, placed, None);
  }

  /** What the symbol loop of the algorithm promises: short orders of priced
      symbols tagged with their tier, a budget used that grows by exactly
      their notional, stays within the limit when it starts within it, and
      buys nothing once the budget is used up. */
  lemma SweepFacts(inputs: SweepInputs, pool: seq<PoolEntry>, used: real)
    ensures var r, prices, limit := Sweep(Decider(inputs), pool, used), inputs.market.prices, inputs.limit;
            && (forall o :: o in r.orders ==> IsShortOrder(o, prices))
            && (forall i :: 0 <= i < |r.orders| ==> r.orders[i].symbol in prices)
            && r.used == used + Spent(r.orders, prices)
            && r.used >= used
            && (used <= limit ==> r.used <= limit)
            && (used >= limit ==> r.orders == [] && r.used == used)
  {
    var decide, prices, limit := Decider(inputs), inputs.market.prices, inputs.limit;
    DeciderIsSound(inputs);
    SweepOrders(decide, limit, prices, pool, used);
    SweepSpends(decide, limit, prices, pool, used);
    if used <= limit {
      SweepWithinLimit(decide, limit, prices, pool, used);
    }
    if used >= limit {
      SweepExhausted(decide, limit, prices, pool, used);
    }
  }

  /** The algorithm object: its daily budget, its configuration and pool,
      the previous closes, the position tracker and order log kept by the
      order event callback, the orders it has placed and the chart marks it
      has drawn. */
  class SqqqShortWithCollar {
    var dailyLimit: real
    var dailyUsed: real
    var layerCfg: map<string, LayerConf>
    var pool: seq<PoolEntry>
    var preclose: map<Symbol, real>
    var positionTracker: map<Symbol, int>
    var orderLog: seq<OrderRecord>
    var orders: seq<Order>
    var plots: seq<Plot>

    /** Lines 14-157 as far as the algorithm's own state goes: the budget is
        30% of the starting portfolio value `nav` (with no positivity guard
        here) and nothing is used; `pool` is the tickers whose subscription
        succeeded, in configuration order. */
    constructor(nav: real, pool: seq<PoolEntry>)
      ensures dailyLimit == nav * DailyLimitRatio && dailyUsed == 0.0
      ensures layerCfg == LayerConfig && this.pool == pool
      ensures preclose == map[] && positionTracker == map[]
      ensures orderLog == [] && orders == [] && plots == []
    {
      dailyLimit := nav * DailyLimitRatio;
      dailyUsed := 0.0;
      layerCfg := LayerConfig;
      this.pool := pool;
      preclose := map[];
      positionTracker := map[];
      orderLog := [];
      orders := [];
      plots := [];
    }

    /** What the symbol loop reads of the algorithm and the market. */
    function Inputs(m: Market): SweepInputs
      reads this
    {
      SweepInputs(layerCfg, preclose, m, dailyLimit, Policy)
    }

    /** Lines 160-180 with the history lookups as the input `closes`: the
        last daily close of each symbol that has history (a NaN close is
        absent). Only positive closes are kept; others keep their old value. */
    method RecordPoolPreClose(closes: map<Symbol, real>)
      modifies this
      ensures preclose == KeptCloses(old(preclose), pool, closes)
      ensures dailyLimit == old(dailyLimit) && dailyUsed == old(dailyUsed) && layerCfg == old(layerCfg)
      ensures pool == old(pool) && positionTracker == old(positionTracker)
      ensures orderLog == old(orderLog) && plots == old(plots) && orders == old(orders)
    {
      preclose := KeepCloses(preclose, pool, closes);
    }

    /** Lines 183-187: whatever was used or allowed before, the day starts
        with nothing used and a budget of 30% of the positive NAV. */
    method DailyRe(nav: real)
      modifies this
      ensures dailyLimit == TotalValue(nav) * DailyLimitRatio && dailyUsed == 0.0
      ensures dailyLimit > 0.0
      ensures layerCfg == old(layerCfg) && pool == old(pool) && preclose == old(preclose)
      ensures positionTracker == old(positionTracker) && orderLog == old(orderLog)
      ensures orders == old(orders) && plots == old(plots)
    {
      var v := TotalValue(nav);
      dailyLimit := v * DailyLimitRatio;
      dailyUsed := 0.0;
    }

    /** Lines 232-341: the symbol loop over the pool with the algorithm's
        sizing rule, which places the orders of `Sweep` and updates the
        budget used; a pool symbol with a valid close that is not among the
        securities raises `KeyError` and ends the loop with the earlier
        orders kept. The budget used never decreases, never passes the limit
        when it started within it, and buys nothing once it is used up. */
    method ShortEquityBySigma(m: Market) returns (error: Option<PyError>)
      modifies this
      ensures var r := Sweep(Decider(old(Inputs(m))), old(pool), old(dailyUsed));
              && dailyUsed == r.used && orders == old(orders) + r.orders && error == r.error
      ensures dailyUsed >= old(dailyUsed)
      ensures old(dailyUsed) <= dailyLimit ==> dailyUsed <= dailyLimit
      ensures old(dailyUsed) >= dailyLimit ==> orders == old(orders) && dailyUsed == old(dailyUsed)
      ensures dailyLimit == old(dailyLimit) && layerCfg == old(layerCfg) && pool == old(pool)
      ensures preclose == old(preclose) && positionTracker == old(positionTracker)
      ensures orderLog == old(orderLog) && plots == old(plots)
    {
      var inputs := Inputs(m);
      var r := RunSweep(inputs, pool, dailyUsed);
      SweepFacts(inputs, pool, dailyUsed);
      dailyUsed := r.used;
      orders := orders + r.orders;
      error := r.error;
    }

    /** Lines 209-229 over the securities: one cover order per profitable
        short equity, appended in the securities' order. */
    method CloseShortEquityProfits10(secs: seq<SecurityView>)
      modifies this
      ensures orders == old(orders) + CoverOrders(secs)
      ensures dailyLimit == old(dailyLimit) && dailyUsed == old(dailyUsed) && layerCfg == old(layerCfg)
      ensures pool == old(pool) && preclose == old(preclose) && positionTracker == old(positionTracker)
      ensures orderLog == old(orderLog) && plots == old(plots)
    {
      var covers: seq<Order> := [];
      var i := 0;
      while i < |secs|
        invariant 0 <= i <= |secs|
        invariant covers + CoverOrders(secs[i..]) == CoverOrders(secs)
      {
        var s := secs[i];
        assert secs[i..][0] == s && secs[i..][1..] == secs[i + 1..];
        if s.isEquity && s.quantity < 0 && s.unrealizedProfitPercent.Some? {
          if s.unrealizedProfitPercent.value >= TakeProfit {
            covers := covers + [Order(s.symbol, -s.quantity, CoverTag)];
          }
        }
        i := i + 1;
      }
      assert secs[|secs|..] == [];
      orders := orders + covers;
    }

    /** Lines 343-421: a fill of zero changes nothing; any other fill moves
        the tracked position of its symbol by the truncated quantity, appends
        exactly one record to the order log and draws its chart marks. */
    method OnOrderEvent(e: OrderEvent, ctx: EventContext)
      modifies this
      ensures e.fillQuantity == 0.0 ==>
                positionTracker == old(positionTracker) && orderLog == old(orderLog) && plots == old(plots)
      ensures e.fillQuantity != 0.0 ==>
                var fill := Fill(e.symbol, Truncate(e.fillQuantity));
                var prev := Held(old(positionTracker), e.symbol);
                && positionTracker == Track(old(positionTracker), fill)
                && orderLog == old(orderLog) + [RecordOf(e, ctx, prev + fill.quantity)]
                && plots == old(plots) + EventPlots(e, ctx, e.symbol in PoolSymbols(pool), prev, prev + fill.quantity)
      ensures dailyLimit == old(dailyLimit) && dailyUsed == old(dailyUsed) && layerCfg == old(layerCfg)
      ensures pool == old(pool) && preclose == old(preclose) && orders == old(orders)
    {
      if e.fillQuantity == 0.0 {
        return;
      }
      var fillQty := Truncate(e.fillQuantity);
      var prev := Held(positionTracker, e.symbol);
      var newQty := prev + fillQty;
      positionTracker := positionTracker[e.symbol := newQty];
      orderLog := orderLog + [RecordOf(e, ctx, newQty)];
      var inPool := e.symbol in PoolSymbols(pool);
      if ctx.securityType == Some(EquityType) && inPool {
        if prev == 0 && newQty != 0 {
          plots := plots + [Plot(e.symbol + "_Entry", e.fillPrice)];
        } else if prev != 0 && newQty == 0 {
          plots := plots + [Plot(e.symbol + "_Exit", e.fillPrice)];
        }
      }
      var collar := CollarPlot(TagOf(ctx.orderTag), e.fillPrice);
      if collar.Some? {
        plots := plots + [collar.value];
      }
    }

    /** Lines 190-206: mark the price of every pool symbol with a positive
        price, then run the symbol loop on minutes that are a multiple of 15. */
    method OnData(minute: nat, m: Market) returns (error: Option<PyError>)
      modifies this
      ensures plots == old(plots) + PricePlots(old(pool), m.prices)
      ensures minute % 15 != 0 ==> error.None? && orders == old(orders) && dailyUsed == old(dailyUsed)
      ensures minute % 15 == 0 ==>
                var r := Sweep(Decider(old(Inputs(m))), old(pool), old(dailyUsed));
                && dailyUsed == r.used && orders == old(orders) + r.orders && error == r.error
      ensures dailyLimit == old(dailyLimit) && layerCfg == old(layerCfg) && pool == old(pool)
      ensures preclose == old(preclose) && positionTracker == old(positionTracker) && orderLog == old(orderLog)
    {
      var marks := MarkPrices(pool, m.prices);
      plots := plots + marks;
      if minute % 15 != 0 {
        return None;
      }
      error := ShortEquityBySigma(m);
    }
  }
}
