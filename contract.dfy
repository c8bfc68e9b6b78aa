/**
 * The messages of the market-data stream contract (package `ru.tinkoff.piapi.contract.v1`)
 * that the subscription session builds, as plain values. Only the fields the session sets
 * are modelled; the wire encoding is not.
 */
module MarketDataContract {

  /** A protobuf `int32`, the type of an order book depth. */
  newtype int32 = x: int | -0x8000_0000 <= x < 0x8000_0000

  /** `SubscriptionAction`: SUBSCRIPTION_ACTION_SUBSCRIBE (1) or SUBSCRIPTION_ACTION_UNSUBSCRIBE (2). */
  datatype SubscriptionAction = Subscribe | Unsubscribe

  /**
   * `SubscriptionInterval`, the candle interval. The session only ever names ONE_MINUTE;
   * any other value comes from the caller and is copied onto every candle entry.
   * Null and UNRECOGNIZED, on which the generated setter throws, are not modelled.
   */
  datatype SubscriptionInterval = IntervalUnspecified | OneMinute | FiveMinutes

  // Per-instrument entries: only the identifier, plus the kind-specific parameter.
  datatype TradeInstrument = TradeInstrument(instrumentId: string)
  datatype OrderBookInstrument = OrderBookInstrument(instrumentId: string, depth: int32)
  datatype CandleInstrument = CandleInstrument(instrumentId: string, interval: SubscriptionInterval)
  datatype InfoInstrument = InfoInstrument(instrumentId: string)
  datatype LastPriceInstrument = LastPriceInstrument(instrumentId: string)

  // One request per subscription kind: the action and the ordered list of entries.
  datatype SubscribeTradesRequest =
    SubscribeTradesRequest(subscriptionAction: SubscriptionAction, instruments: seq<TradeInstrument>)
  datatype SubscribeOrderBookRequest =
    SubscribeOrderBookRequest(subscriptionAction: SubscriptionAction, instruments: seq<OrderBookInstrument>)
  /** `waitingClose` belongs to the request as a whole, not to its entries. */
  datatype SubscribeCandlesRequest =
    SubscribeCandlesRequest(subscriptionAction: SubscriptionAction, instruments: seq<CandleInstrument>,
                            waitingClose: bool)
  datatype SubscribeInfoRequest =
    SubscribeInfoRequest(subscriptionAction: SubscriptionAction, instruments: seq<InfoInstrument>)
  datatype SubscribeLastPriceRequest =
    SubscribeLastPriceRequest(subscriptionAction: SubscriptionAction, instruments: seq<LastPriceInstrument>)

  /** `MarketDataRequest` with its `payload` oneof: exactly one of the five requests is set. */
  datatype MarketDataRequest =
    | SubscribeCandles(candles: SubscribeCandlesRequest)
    | SubscribeOrderBook(orderBook: SubscribeOrderBookRequest)
    | SubscribeTrades(trades: SubscribeTradesRequest)
    | SubscribeInfo(info: SubscribeInfoRequest)
    | SubscribeLastPrice(lastPrice: SubscribeLastPriceRequest)

  /** The five subscription kinds, one per variant of the oneof. */
  datatype SubscriptionKind = Trades | OrderBook | Candles | Info | LastPrice
}
