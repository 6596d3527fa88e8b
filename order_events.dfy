/** The bookkeeping of the order event callback (sample.py lines 343-421): the
    algorithm's own position tracker, the in-memory order log, the entry and
    exit marks of the trade chart and the collar marks read off the order tag.
    Symbols are their ticker strings. */
module OrderEvents {
  import opened PyValues

  /** `sec.type` of the security an event is about. */
  datatype SecurityType = EquityType | OptionType | IndexType | OtherType(name: string)

  /** What the brokerage reports with a fill. */
  datatype OrderEvent = OrderEvent(symbol: string, fillQuantity: real, fillPrice: real,
                                   direction: string, orderId: int)

  /** The holding as the portfolio reports it after the fill. */
  datatype Holding = Holding(quantity: int, averagePrice: real)

  /** What the callback looks up besides the event: the time, the tag of the
      order (`None` when the order is not found or has no tag), the type of
      the security (`None` when it is not among the securities), the
      portfolio's holding (`None` when reading it raises). */
  datatype EventContext = EventContext(time: int, orderTag: Option<string>, securityType: Option<SecurityType>,
                                       holding: Option<Holding>)

  /** One entry of `order_log`. */
  datatype OrderRecord = OrderRecord(time: int, symbol: string, assetType: string, orderId: int, tag: string,
                                     direction: string, fillQty: int, fillPrice: real,
                                     positionAfter: int, avgPriceAfter: real)

  /** One point drawn on the "Trades" chart. */
  datatype Plot = Plot(series: string, value: real)

  /** A move of the tracked position that the chart marks. */
  datatype Mark = Entry | Exit

  /** One fill as the tracker sees it. */
  datatype Fill = Fill(symbol: string, quantity: int)

  const PutPrefix: string := "COLLAR_PUT_"
  const CallPrefix: string := "COLLAR_CALL_"

  /** Python's `int(x)`: truncation toward zero. */
  function Truncate(x: real): (n: int)
    ensures x >= 0.0 ==> n as real <= x < n as real + 1.0
    ensures x <= 0.0 ==> n as real - 1.0 < x <= n as real
  {
    if x >= 0.0 then x.Floor else -((-x).Floor)
  }

  /** `str(sec.type)`, or "Unknown" for a symbol that is not a security. */
  function AssetTypeName(t: Option<SecurityType>): string {
    match t
    case None => "Unknown"
    case Some(EquityType) => "Equity"
    case Some(OptionType) => "Option"
    case Some(IndexType) => "Index"
    case Some(OtherType(name)) => name
  }

  /** The tag read from the order: empty when there is none. */
  function TagOf(orderTag: Option<string>): string {
    orderTag.GetOr("")
  }

  /** `position_tracker.get(sym, 0)`. */
  function Held(tracker: map<string, int>, s: string): int {
    if s in tracker then tracker[s] else 0
  }

  /** `position_tracker[sym] = prev_qty + fill_qty`. */
  function Track(tracker: map<string, int>, f: Fill): (t: map<string, int>)
    ensures Held(t, f.symbol) == Held(tracker, f.symbol) + f.quantity
    ensures forall s :: s != f.symbol ==> Held(t, s) == Held(tracker, s)
    ensures t.Keys == tracker.Keys + {f.symbol}
  {
    tracker[f.symbol := Held(tracker, f.symbol) + f.quantity]
  }

  /** The tracker after a run of fills, in order. */
  function Replay(tracker: map<string, int>, fills: seq<Fill>): map<string, int>
    decreases |fills|
  {
    if fills == [] then tracker else Replay(Track(tracker, fills[0]), fills[1..])
  }

  /** The net quantity filled in symbol `s`. */
  function Net(fills: seq<Fill>, s: string): int
    decreases |fills|
  {
    if fills == [] then 0 else (if fills[0].symbol == s then fills[0].quantity else 0) + Net(fills[1..], s)
  }

  /** The tracker holds, per symbol, what it held before plus the net of the
      fills: it is the running sum of the fills. */
  lemma {:induction false} ReplayIsNet(tracker: map<string, int>, fills: seq<Fill>, s: string)
    ensures Held(Replay(tracker, fills), s) == Held(tracker, s) + Net(fills, s)
    decreases |fills|
  {
    if fills != [] {
      ReplayIsNet(Track(tracker, fills[0]), fills[1..], s);
    }
  }

  /** A move from flat to a position is an entry, from a position to flat an
      exit; any other move is not marked. */
  function MarkOf(prev: int, after: int): (m: Option<Mark>)
    ensures m == Some(Entry) <==> prev == 0 && after != 0
    ensures m == Some(Exit) <==> prev != 0 && after == 0
  {
    if prev == 0 && after != 0 then Some(Entry) else if prev != 0 && after == 0 then Some(Exit) else None
  }

  function Score(m: Option<Mark>): int {
    match m
    case None => 0
    case Some(Entry) => 1
    case Some(Exit) => -1
  }

  function Flag(b: bool): int { if b then 1 else 0 }

  /** The entries minus the exits of symbol `s` over a run of fills. */
  function Balance(tracker: map<string, int>, fills: seq<Fill>, s: string): int
    decreases |fills|
  {
    if fills == [] then 0
    else
      var f := fills[0];
      var prev := Held(tracker, f.symbol);
      (if f.symbol == s then Score(MarkOf(prev, prev + f.quantity)) else 0) + Balance(Track(tracker, f), fills[1..], s)
  }

  /** Entries and exits alternate: over any run of fills there is one entry
      more than exits exactly when the run opens a position, one exit more
      exactly when it closes one, and as many of each otherwise. */
  lemma {:induction false} EntriesAndExitsAlternate(tracker: map<string, int>, fills: seq<Fill>, s: string)
    ensures Balance(tracker, fills, s) == Flag(Held(Replay(tracker, fills), s) != 0) - Flag(Held(tracker, s) != 0)
    decreases |fills|
  {
    if fills != [] {
      EntriesAndExitsAlternate(Track(tracker, fills[0]), fills[1..], s);
    }
  }

  /** The record appended to `order_log`; the portfolio's holding wins over
      the tracker when it can be read. */
  function RecordOf(e: OrderEvent, ctx: EventContext, newQty: int): (r: OrderRecord)
    ensures r.symbol == e.symbol && r.orderId == e.orderId && r.direction == e.direction
    ensures r.fillQty == Truncate(e.fillQuantity) && r.fillPrice == e.fillPrice
    ensures r.tag == TagOf(ctx.orderTag) && r.time == ctx.time && r.assetType == AssetTypeName(ctx.securityType)
    ensures ctx.holding.None? ==> r.positionAfter == newQty && r.avgPriceAfter == 0.0
    ensures ctx.holding.Some? ==> r.positionAfter == ctx.holding.value.quantity
                                  && r.avgPriceAfter == ctx.holding.value.averagePrice
  {
    var posAfter := if ctx.holding.Some? then ctx.holding.value.quantity else newQty;
    var avgAfter := if ctx.holding.Some? then ctx.holding.value.averagePrice else 0.0;
    OrderRecord(ctx.time, e.symbol, AssetTypeName(ctx.securityType), e.orderId, TagOf(ctx.orderTag),
                e.direction, Truncate(e.fillQuantity), e.fillPrice, posAfter, avgAfter)
  }

  predicate StartsWith(s: string, prefix: string) {
    |prefix| <= |s| && s[..|prefix|] == prefix
  }

  /** Python's `s.replace(pat, "")`: every occurrence of `pat`, found left to
      right without overlap, is deleted; the result is not searched again. */
  function RemoveAll(s: string, pat: string): string
    requires pat != []
    decreases |s|
  {
    if |s| < |pat| then s
    else if s[..|pat|] == pat then RemoveAll(s[|pat|..], pat)
    else [s[0]] + RemoveAll(s[1..], pat)
  }

  predicate OccursAt(s: string, pat: string, i: nat) {
    i + |pat| <= |s| && s[i..i + |pat|] == pat
  }

  predicate Free(s: string, pat: string) {
    forall i: nat :: i <= |s| ==> !OccursAt(s, pat, i)
  }

  /** A string with no occurrence of the pattern is left as it is. */
  lemma {:induction false} RemoveAllOfFree(s: string, pat: string)
    requires pat != [] && Free(s, pat)
    ensures RemoveAll(s, pat) == s
    decreases |s|
  {
    if |s| >= |pat| {
      assert !OccursAt(s, pat, 0);
      forall i: nat | i <= |s[1..]| ensures !OccursAt(s[1..], pat, i) {
        assert !OccursAt(s, pat, i + 1);
        if i + |pat| <= |s[1..]| {
          assert s[1..][i..i + |pat|] == s[i + 1..i + 1 + |pat|];
        }
      }
      RemoveAllOfFree(s[1..], pat);
    }
  }

  /** The chart mark of a collar leg: the ticker is the tag with the prefix
      deleted, a put is a sale and a call a purchase. */
  function CollarPlot(tag: string, price: real): (p: Option<Plot>)
    ensures p.Some? <==> StartsWith(tag, PutPrefix) || StartsWith(tag, CallPrefix)
    ensures StartsWith(tag, PutPrefix) ==> p == Some(Plot(RemoveAll(tag, PutPrefix) + "_SellPut", price))
    ensures !StartsWith(tag, PutPrefix) && StartsWith(tag, CallPrefix) ==>
              p == Some(Plot(RemoveAll(tag, CallPrefix) + "_BuyCall", price))
  {
    if StartsWith(tag, PutPrefix) then Some(Plot(RemoveAll(tag, PutPrefix) + "_SellPut", price))
    else if StartsWith(tag, CallPrefix) then Some(Plot(RemoveAll(tag, CallPrefix) + "_BuyCall", price))
    else None
  }

  /** A collar tag built from a ticker that does not contain the prefix
      marks that ticker's series. */
  lemma CollarTagRoundTrip(ticker: string, price: real)
    requires Free(ticker, PutPrefix) && Free(ticker, CallPrefix)
    ensures CollarPlot(PutPrefix + ticker, price) == Some(Plot(ticker + "_SellPut", price))
    ensures CollarPlot(CallPrefix + ticker, price) == Some(Plot(ticker + "_BuyCall", price))
  {
    var put, call := PutPrefix + ticker, CallPrefix + ticker;
    assert put[..|PutPrefix|] == PutPrefix && put[|PutPrefix|..] == ticker;
    assert call[..|CallPrefix|] == CallPrefix && call[|CallPrefix|..] == ticker;
    assert call[7] != PutPrefix[7];
    RemoveAllOfFree(ticker, PutPrefix);
    RemoveAllOfFree(ticker, CallPrefix);
  }

  /** The marks drawn for one fill: an entry or exit of a pool equity, then
      a collar leg recognised by its tag. `inPool` says whether the symbol is
      one of the subscribed pool symbols. */
  function EventPlots(e: OrderEvent, ctx: EventContext, inPool: bool, prev: int, after: int): (ps: seq<Plot>)
    ensures |ps| <= 2
    ensures var c := CollarPlot(TagOf(ctx.orderTag), e.fillPrice);
            var collars := if c.Some? then [c.value] else [];
            && (!(ctx.securityType == Some(EquityType) && inPool) || MarkOf(prev, after).None? ==> ps == collars)
            && (ctx.securityType == Some(EquityType) && inPool && prev == 0 && after != 0 ==>
                  ps == [Plot(e.symbol + "_Entry", e.fillPrice)] + collars)
            && (ctx.securityType == Some(EquityType) && inPool && prev != 0 && after == 0 ==>
                  ps == [Plot(e.symbol + "_Exit", e.fillPrice)] + collars)
  {
    var marks :=
      if ctx.securityType == Some(EquityType) && inPool then
        match MarkOf(prev, after)
        case Some(Entry) => [Plot(e.symbol + "_Entry", e.fillPrice)]
        case Some(Exit) => [Plot(e.symbol + "_Exit", e.fillPrice)]
        case None => []
      else [];
    var collar := CollarPlot(TagOf(ctx.orderTag), e.fillPrice);
    marks + (if collar.Some? then [collar.value] else [])
  }
}
