/**
 * The control-message builders of the market-data subscription session: each turns
 * an ordered list of instrument ids, an action and the kind's parameters into one
 * `MarketDataRequest` with exactly one variant of its oneof set. Here they are pure
 * functions; the session's methods run the same construction as a loop and send it.
 */
module ControlMessages {
  import opened MarketDataContract
  import opened Sequences

  // Per-instrument entry constructors: one call of `addInstruments` each.

  function TradeEntry(instrumentId: string): TradeInstrument { TradeInstrument(instrumentId) }

  function OrderBookEntry(depth: int32): string -> OrderBookInstrument {
    instrumentId => OrderBookInstrument(instrumentId, depth)
  }

  function CandleEntry(interval: SubscriptionInterval): string -> CandleInstrument {
    instrumentId => CandleInstrument(instrumentId, interval)
  }

  function InfoEntry(instrumentId: string): InfoInstrument { InfoInstrument(instrumentId) }

  function LastPriceEntry(instrumentId: string): LastPriceInstrument { LastPriceInstrument(instrumentId) }

  // The builders.

  /** `tradesStream`: a trades request with one entry per id, in order. */
  function TradesRequest(instrumentIds: seq<string>, action: SubscriptionAction): (r: MarketDataRequest)
    ensures r.SubscribeTrades? && r.trades.subscriptionAction == action
    ensures |r.trades.instruments| == |instrumentIds|
    ensures forall i :: 0 <= i < |instrumentIds| ==> r.trades.instruments[i].instrumentId == instrumentIds[i]
  {
    SubscribeTrades(SubscribeTradesRequest(action, MapSeq(instrumentIds, TradeEntry)))
  }

  /** `orderBookStream`: every entry carries the given depth, whatever its value. */
  function OrderBookRequest(instrumentIds: seq<string>, action: SubscriptionAction, depth: int32): (r: MarketDataRequest)
    ensures r.SubscribeOrderBook? && r.orderBook.subscriptionAction == action
    ensures |r.orderBook.instruments| == |instrumentIds|
    ensures forall i :: 0 <= i < |instrumentIds| ==>
              r.orderBook.instruments[i].instrumentId == instrumentIds[i] && r.orderBook.instruments[i].depth == depth
  {
    SubscribeOrderBook(SubscribeOrderBookRequest(action, MapSeq(instrumentIds, OrderBookEntry(depth))))
  }

  /** `candlesStream`: the interval is set on every entry, `waitingClose` once on the request. */
  function CandlesRequest(instrumentIds: seq<string>, action: SubscriptionAction,
                          interval: SubscriptionInterval, waitingClose: bool): (r: MarketDataRequest)
    ensures r.SubscribeCandles? && r.candles.subscriptionAction == action
    ensures r.candles.waitingClose == waitingClose
    ensures |r.candles.instruments| == |instrumentIds|
    ensures forall i :: 0 <= i < |instrumentIds| ==>
              r.candles.instruments[i].instrumentId == instrumentIds[i] && r.candles.instruments[i].interval == interval
  {
    SubscribeCandles(SubscribeCandlesRequest(action, MapSeq(instrumentIds, CandleEntry(interval)), waitingClose))
  }

  /** `infoStream`: an instrument-status request with one entry per id, in order. */
  function InfoRequest(instrumentIds: seq<string>, action: SubscriptionAction): (r: MarketDataRequest)
    ensures r.SubscribeInfo? && r.info.subscriptionAction == action
    ensures |r.info.instruments| == |instrumentIds|
    ensures forall i :: 0 <= i < |instrumentIds| ==> r.info.instruments[i].instrumentId == instrumentIds[i]
  {
    SubscribeInfo(SubscribeInfoRequest(action, MapSeq(instrumentIds, InfoEntry)))
  }

  /** `lastPricesStream`: a last-price request with one entry per id, in order. */
  function LastPriceRequest(instrumentIds: seq<string>, action: SubscriptionAction): (r: MarketDataRequest)
    ensures r.SubscribeLastPrice? && r.lastPrice.subscriptionAction == action
    ensures |r.lastPrice.instruments| == |instrumentIds|
    ensures forall i :: 0 <= i < |instrumentIds| ==> r.lastPrice.instruments[i].instrumentId == instrumentIds[i]
  {
    SubscribeLastPrice(SubscribeLastPriceRequest(action, MapSeq(instrumentIds, LastPriceEntry)))
  }

  // Views of a request, independent of how it was built.

  /** Which variant of the oneof is set. */
  function KindOf(r: MarketDataRequest): SubscriptionKind {
    match r
    case SubscribeTrades(_) => Trades
    case SubscribeOrderBook(_) => OrderBook
    case SubscribeCandles(_) => Candles
    case SubscribeInfo(_) => Info
    case SubscribeLastPrice(_) => LastPrice
  }

  /** The action of the one request that is set. */
  function ActionOf(r: MarketDataRequest): SubscriptionAction {
    match r
    case SubscribeTrades(q) => q.subscriptionAction
    case SubscribeOrderBook(q) => q.subscriptionAction
    case SubscribeCandles(q) => q.subscriptionAction
    case SubscribeInfo(q) => q.subscriptionAction
    case SubscribeLastPrice(q) => q.subscriptionAction
  }

  function TradeId(e: TradeInstrument): string { e.instrumentId }
  function OrderBookId(e: OrderBookInstrument): string { e.instrumentId }
  function CandleId(e: CandleInstrument): string { e.instrumentId }
  function InfoId(e: InfoInstrument): string { e.instrumentId }
  function LastPriceId(e: LastPriceInstrument): string { e.instrumentId }

  /** The instrument ids of the request's entries, in entry order. */
  function InstrumentIds(r: MarketDataRequest): seq<string> {
    match r
    case SubscribeTrades(q) => MapSeq(q.instruments, TradeId)
    case SubscribeOrderBook(q) => MapSeq(q.instruments, OrderBookId)
    case SubscribeCandles(q) => MapSeq(q.instruments, CandleId)
    case SubscribeInfo(q) => MapSeq(q.instruments, InfoId)
    case SubscribeLastPrice(q) => MapSeq(q.instruments, LastPriceId)
  }

  /** The same request with another action. */
  function WithAction(r: MarketDataRequest, action: SubscriptionAction): MarketDataRequest {
    match r
    case SubscribeTrades(q) => SubscribeTrades(q.(subscriptionAction := action))
    case SubscribeOrderBook(q) => SubscribeOrderBook(q.(subscriptionAction := action))
    case SubscribeCandles(q) => SubscribeCandles(q.(subscriptionAction := action))
    case SubscribeInfo(q) => SubscribeInfo(q.(subscriptionAction := action))
    case SubscribeLastPrice(q) => SubscribeLastPrice(q.(subscriptionAction := action))
  }

  /**
   * A request all of whose entries share one kind-specific parameter: the same depth
   * for an order book request, the same interval for a candles request.
   */
  predicate WellFormed(r: MarketDataRequest) {
    match r
    case SubscribeOrderBook(q) =>
      forall i :: 0 <= i < |q.instruments| ==> q.instruments[i].depth == q.instruments[0].depth
    case SubscribeCandles(q) =>
      forall i :: 0 <= i < |q.instruments| ==> q.instruments[i].interval == q.instruments[0].interval
    case _ => true
  }

  /**
   * The request that the builder of `r`'s kind makes of `r`'s own ids, action and
   * parameters; `depth` and `interval` stand in when an empty request has no entry to
   * read them from.
   */
  function Rebuild(r: MarketDataRequest, depth: int32, interval: SubscriptionInterval): MarketDataRequest {
    match r
    case SubscribeTrades(q) => TradesRequest(InstrumentIds(r), q.subscriptionAction)
    case SubscribeOrderBook(q) =>
      OrderBookRequest(InstrumentIds(r), q.subscriptionAction, if q.instruments == [] then depth else q.instruments[0].depth)
    case SubscribeCandles(q) =>
      CandlesRequest(InstrumentIds(r), q.subscriptionAction,
                     if q.instruments == [] then interval else q.instruments[0].interval, q.waitingClose)
    case SubscribeInfo(q) => InfoRequest(InstrumentIds(r), q.subscriptionAction)
    case SubscribeLastPrice(q) => LastPriceRequest(InstrumentIds(r), q.subscriptionAction)
  }

  // Properties of the builders.

  /**
   * Each builder's request is of its own kind, carries the given action, lists exactly
   * the given ids in the given order (no deduplication, no filtering; none for an empty
   * list) and is well formed.
   */
  lemma BuiltRequestsDescribeTheirInputs(instrumentIds: seq<string>, action: SubscriptionAction,
                                         depth: int32, interval: SubscriptionInterval, waitingClose: bool)
    ensures var r := TradesRequest(instrumentIds, action);
      KindOf(r) == Trades && ActionOf(r) == action && InstrumentIds(r) == instrumentIds && WellFormed(r)
    ensures var r := OrderBookRequest(instrumentIds, action, depth);
      KindOf(r) == OrderBook && ActionOf(r) == action && InstrumentIds(r) == instrumentIds && WellFormed(r)
    ensures var r := CandlesRequest(instrumentIds, action, interval, waitingClose);
      KindOf(r) == Candles && ActionOf(r) == action && InstrumentIds(r) == instrumentIds && WellFormed(r)
    ensures var r := InfoRequest(instrumentIds, action);
      KindOf(r) == Info && ActionOf(r) == action && InstrumentIds(r) == instrumentIds && WellFormed(r)
    ensures var r := LastPriceRequest(instrumentIds, action);
      KindOf(r) == LastPrice && ActionOf(r) == action && InstrumentIds(r) == instrumentIds && WellFormed(r)
  {
    MapSeqLeftInverse(instrumentIds, TradeEntry, TradeId);
    MapSeqLeftInverse(instrumentIds, OrderBookEntry(depth), OrderBookId);
    MapSeqLeftInverse(instrumentIds, CandleEntry(interval), CandleId);
    MapSeqLeftInverse(instrumentIds, InfoEntry, InfoId);
    MapSeqLeftInverse(instrumentIds, LastPriceEntry, LastPriceId);
  }

  /**
   * For the same ids and parameters, the subscribe and the unsubscribe request of a
   * kind differ in the action and in nothing else.
   */
  lemma SubscribeAndUnsubscribeDifferOnlyInAction(instrumentIds: seq<string>, depth: int32,
                                                  interval: SubscriptionInterval, waitingClose: bool)
    ensures WithAction(TradesRequest(instrumentIds, Subscribe), Unsubscribe)
            == TradesRequest(instrumentIds, Unsubscribe)
    ensures WithAction(OrderBookRequest(instrumentIds, Subscribe, depth), Unsubscribe)
            == OrderBookRequest(instrumentIds, Unsubscribe, depth)
    ensures WithAction(CandlesRequest(instrumentIds, Subscribe, interval, waitingClose), Unsubscribe)
            == CandlesRequest(instrumentIds, Unsubscribe, interval, waitingClose)
    ensures WithAction(InfoRequest(instrumentIds, Subscribe), Unsubscribe)
            == InfoRequest(instrumentIds, Unsubscribe)
    ensures WithAction(LastPriceRequest(instrumentIds, Subscribe), Unsubscribe)
            == LastPriceRequest(instrumentIds, Unsubscribe)
    ensures TradesRequest(instrumentIds, Subscribe) != TradesRequest(instrumentIds, Unsubscribe)
    ensures OrderBookRequest(instrumentIds, Subscribe, depth) != OrderBookRequest(instrumentIds, Unsubscribe, depth)
    ensures CandlesRequest(instrumentIds, Subscribe, interval, waitingClose)
            != CandlesRequest(instrumentIds, Unsubscribe, interval, waitingClose)
    ensures InfoRequest(instrumentIds, Subscribe) != InfoRequest(instrumentIds, Unsubscribe)
    ensures LastPriceRequest(instrumentIds, Subscribe) != LastPriceRequest(instrumentIds, Unsubscribe)
  {
  }

  /**
   * The converse of BuiltRequestsDescribeTheirInputs: every well-formed request is what
   * the builder of its kind makes of its own ids, action and parameters. An empty order
   * book or candles request has no entry to read the depth or interval from, and is
   * rebuilt with any `depth` or `interval` given.
   */
  lemma {:induction false} WellFormedRequestsAreBuilt(r: MarketDataRequest, depth: int32, interval: SubscriptionInterval)
    requires WellFormed(r)
    ensures r.SubscribeTrades? ==> r == TradesRequest(InstrumentIds(r), ActionOf(r))
    ensures r.SubscribeOrderBook? ==>
      r == OrderBookRequest(InstrumentIds(r), ActionOf(r),
                            if r.orderBook.instruments == [] then depth else r.orderBook.instruments[0].depth)
    ensures r.SubscribeCandles? ==>
      r == CandlesRequest(InstrumentIds(r), ActionOf(r),
                          if r.candles.instruments == [] then interval else r.candles.instruments[0].interval,
                          r.candles.waitingClose)
    ensures r.SubscribeInfo? ==> r == InfoRequest(InstrumentIds(r), ActionOf(r))
    ensures r.SubscribeLastPrice? ==> r == LastPriceRequest(InstrumentIds(r), ActionOf(r))
    ensures r == Rebuild(r, depth, interval)
  {
    match r
    case SubscribeTrades(q) =>
      MapSeqLeftInverse(q.instruments, TradeId, TradeEntry);
    case SubscribeOrderBook(q) =>
      var d := if q.instruments == [] then depth else q.instruments[0].depth;
      var rebuilt := MapSeq(MapSeq(q.instruments, OrderBookId), OrderBookEntry(d));
      assert forall i :: 0 <= i < |q.instruments| ==> rebuilt[i] == q.instruments[i];
      assert rebuilt == q.instruments;
    case SubscribeCandles(q) =>
      var v := if q.instruments == [] then interval else q.instruments[0].interval;
      var rebuilt := MapSeq(MapSeq(q.instruments, CandleId), CandleEntry(v));
      assert forall i :: 0 <= i < |q.instruments| ==> rebuilt[i] == q.instruments[i];
      assert rebuilt == q.instruments;
    case SubscribeInfo(q) =>
      MapSeqLeftInverse(q.instruments, InfoId, InfoEntry);
    case SubscribeLastPrice(q) =>
      MapSeqLeftInverse(q.instruments, LastPriceId, LastPriceEntry);
  }
}
