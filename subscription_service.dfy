/**
 * The market-data subscription session: one outbound stream of `MarketDataRequest`s
 * and the cancellable context it was opened under. Every subscribe or unsubscribe call
 * sends exactly one request; `Cancel` sends nothing and only cancels the context.
 */
module MarketDataSubscription {
  import opened Wrappers
  import opened MarketDataContract
  import opened Sequences
  import opened ControlMessages
  import opened GrpcContext

  /** The candle interval used when the caller gives none. */
  const DefaultInterval: SubscriptionInterval := OneMinute
  /** The order book depth used when the caller gives none. */
  const DefaultDepth: int32 := 1
  /** The cause `Cancel` cancels the context with. */
  const CancelReason: string := "canceled by user"

  class MarketDataSubscriptionService {
    /** Every request passed to the outbound observer's `onNext`, oldest first. */
    var sent: seq<MarketDataRequest>
    /** The context the stream was opened under; null until one is stored. */
    var contextRef: Context?

    /**
     * Every request on the stream is well formed: one depth or one interval per request.
     * By SentRequestsAreBuilt, each is then exactly its kind's builder applied to its own
     * ids, action and parameters.
     */
    ghost predicate Valid()
      reads this
    {
      forall i :: 0 <= i < |sent| ==> WellFormed(sent[i])
    }

    constructor Opened(context: Context)
      ensures Valid() && sent == [] && contextRef == context
    {
      sent := [];
      contextRef := context;
    }

    /**
     * The public constructor: forks a cancellable context, attaches it, opens the stream
     * under it, stores it only once the stream is open, and detaches it whatever happened.
     * A failure to open the stream is the constructor's exception.
     */
    static method Create(stub: MarketDataStreamStub, thread: ThreadContext)
      returns (r: Result<MarketDataSubscriptionService, string>)
      modifies stub, thread
      ensures thread.current == old(thread.current)
      ensures |stub.openedUnder| == |old(stub.openedUnder)| + 1
      ensures stub.openedUnder[..|old(stub.openedUnder)|] == old(stub.openedUnder)
      ensures var context := stub.openedUnder[|stub.openedUnder| - 1];
        fresh(context) && !context.IsCancelled() &&
        (stub.openFailure.Some? ==> r == Failure(stub.openFailure.value)) &&
        (stub.openFailure.None? ==>
           r.Success? && fresh(r.value) && r.value.Valid() && r.value.sent == [] && r.value.contextRef == context)
    {
      var context := new Context.Fork();
      var previous := thread.Attach(context);
      var outcome := stub.MarketDataStream(thread);
      if outcome.Success? {
        var service := new MarketDataSubscriptionService.Opened(context);
        r := Success(service);
      } else {
        r := Failure(outcome.error);
      }
      thread.Detach(context, previous);
    }

    // Public operations. Each fixes the action and any default, and sends one request.

    method SubscribeTrades(instrumentIds: seq<string>)
      requires Valid()
      modifies this`sent
      ensures Valid() && sent == old(sent) + [TradesRequest(instrumentIds, Subscribe)]
    {
      TradesStream(instrumentIds, Subscribe);
    }

    method UnsubscribeTrades(instrumentIds: seq<string>)
      requires Valid()
      modifies this`sent
      ensures Valid() && sent == old(sent) + [TradesRequest(instrumentIds, Unsubscribe)]
    {
      TradesStream(instrumentIds, Unsubscribe);
    }

    method SubscribeOrderbook(instrumentIds: seq<string>)
      requires Valid()
      modifies this`sent
      ensures Valid() && sent == old(sent) + [OrderBookRequest(instrumentIds, Subscribe, 1)]
    {
      SubscribeOrderbookWithDepth(instrumentIds, DefaultDepth);
    }

    method SubscribeOrderbookWithDepth(instrumentIds: seq<string>, depth: int32)
      requires Valid()
      modifies this`sent
      ensures Valid() && sent == old(sent) + [OrderBookRequest(instrumentIds, Subscribe, depth)]
    {
      OrderBookStream(instrumentIds, Subscribe, depth);
    }

    method UnsubscribeOrderbook(instrumentIds: seq<string>)
      requires Valid()
      modifies this`sent
      ensures Valid() && sent == old(sent) + [OrderBookRequest(instrumentIds, Unsubscribe, 1)]
    {
      UnsubscribeOrderbookWithDepth(instrumentIds, DefaultDepth);
    }

    method UnsubscribeOrderbookWithDepth(instrumentIds: seq<string>, depth: int32)
      requires Valid()
      modifies this`sent
      ensures Valid() && sent == old(sent) + [OrderBookRequest(instrumentIds, Unsubscribe, depth)]
    {
      OrderBookStream(instrumentIds, Unsubscribe, depth);
    }

    method SubscribeInfo(instrumentIds: seq<string>)
      requires Valid()
      modifies this`sent
      ensures Valid() && sent == old(sent) + [InfoRequest(instrumentIds, Subscribe)]
    {
      InfoStream(instrumentIds, Subscribe);
    }

    method UnsubscribeInfo(instrumentIds: seq<string>)
      requires Valid()
      modifies this`sent
      ensures Valid() && sent == old(sent) + [InfoRequest(instrumentIds, Unsubscribe)]
    {
      InfoStream(instrumentIds, Unsubscribe);
    }

    /** Candles at one minute, not waiting for the close. */
    method SubscribeCandles(instrumentIds: seq<string>)
      requires Valid()
      modifies this`sent
      ensures Valid() && sent == old(sent) + [CandlesRequest(instrumentIds, Subscribe, OneMinute, false)]
    {
      SubscribeCandlesWaitingClose(instrumentIds, false);
    }

    /** Candles at one minute. */
    method SubscribeCandlesWaitingClose(instrumentIds: seq<string>, waitingClose: bool)
      requires Valid()
      modifies this`sent
      ensures Valid() && sent == old(sent) + [CandlesRequest(instrumentIds, Subscribe, OneMinute, waitingClose)]
    {
      SubscribeCandlesWithInterval(instrumentIds, DefaultInterval, waitingClose);
    }

    /** Candles at the given interval, not waiting for the close. */
    method SubscribeCandlesAtInterval(instrumentIds: seq<string>, interval: SubscriptionInterval)
      requires Valid()
      modifies this`sent
      ensures Valid() && sent == old(sent) + [CandlesRequest(instrumentIds, Subscribe, interval, false)]
    {
      SubscribeCandlesWithInterval(instrumentIds, interval, false);
    }

    method SubscribeCandlesWithInterval(instrumentIds: seq<string>, interval: SubscriptionInterval, waitingClose: bool)
      requires Valid()
      modifies this`sent
      ensures Valid() && sent == old(sent) + [CandlesRequest(instrumentIds, Subscribe, interval, waitingClose)]
    {
      CandlesStream(instrumentIds, Subscribe, interval, waitingClose);
    }

    /** Unsubscribes one-minute candles. */
    method UnsubscribeCandles(instrumentIds: seq<string>)
      requires Valid()
      modifies this`sent
      ensures Valid() && sent == old(sent) + [CandlesRequest(instrumentIds, Unsubscribe, OneMinute, false)]
    {
      UnsubscribeCandlesAtInterval(instrumentIds, DefaultInterval);
    }

    /** `waitingClose` is always false on an unsubscribe, whatever the interval. */
    method UnsubscribeCandlesAtInterval(instrumentIds: seq<string>, interval: SubscriptionInterval)
      requires Valid()
      modifies this`sent
      ensures Valid() && sent == old(sent) + [CandlesRequest(instrumentIds, Unsubscribe, interval, false)]
    {
      CandlesStream(instrumentIds, Unsubscribe, interval, false);
    }

    method SubscribeLastPrices(instrumentIds: seq<string>)
      requires Valid()
      modifies this`sent
      ensures Valid() && sent == old(sent) + [LastPriceRequest(instrumentIds, Subscribe)]
    {
      LastPricesStream(instrumentIds, Subscribe);
    }

    method UnsubscribeLastPrices(instrumentIds: seq<string>)
      requires Valid()
      modifies this`sent
      ensures Valid() && sent == old(sent) + [LastPriceRequest(instrumentIds, Unsubscribe)]
    {
      LastPricesStream(instrumentIds, Unsubscribe);
    }

    /**
     * Cancels the stored context with the cause "canceled by user"; sends nothing.
     * Without a stored context it does nothing at all.
     */
    method Cancel()
      modifies contextRef
      ensures sent == old(sent) && contextRef == old(contextRef)
      ensures contextRef != null ==>
        contextRef.IsCancelled() &&
        contextRef.cancellationCause == if old(contextRef.cancellationCause).Some?
                                        then old(contextRef.cancellationCause) else Some(CancelReason)
    {
      var context := contextRef;
      if context != null {
        context.Cancel(CancelReason);
      }
    }

    // The builders as the session runs them: one entry per id appended in a loop, then one send.

    method CandlesStream(instrumentIds: seq<string>, action: SubscriptionAction,
                         interval: SubscriptionInterval, waitingClose: bool)
      requires Valid()
      modifies this`sent
      ensures Valid() && sent == old(sent) + [CandlesRequest(instrumentIds, action, interval, waitingClose)]
    {
      var instruments: seq<CandleInstrument> := [];
      for i := 0 to |instrumentIds|
        invariant sent == old(sent)
        invariant instruments == MapSeq(instrumentIds[..i], CandleEntry(interval))
      {
        MapSeqExtend(instrumentIds, i, CandleEntry(interval));
        instruments := instruments + [CandleInstrument(instrumentIds[i], interval)];
      }
      assert instrumentIds[..|instrumentIds|] == instrumentIds;
      sent := sent + [MarketDataRequest.SubscribeCandles(SubscribeCandlesRequest(action, instruments, waitingClose))];
    }

    method LastPricesStream(instrumentIds: seq<string>, action: SubscriptionAction)
      requires Valid()
      modifies this`sent
      ensures Valid() && sent == old(sent) + [LastPriceRequest(instrumentIds, action)]
    {
      var instruments: seq<LastPriceInstrument> := [];
      for i := 0 to |instrumentIds|
        invariant sent == old(sent)
        invariant instruments == MapSeq(instrumentIds[..i], LastPriceEntry)
      {
        MapSeqExtend(instrumentIds, i, LastPriceEntry);
        instruments := instruments + [LastPriceInstrument(instrumentIds[i])];
      }
      assert instrumentIds[..|instrumentIds|] == instrumentIds;
      sent := sent + [MarketDataRequest.SubscribeLastPrice(SubscribeLastPriceRequest(action, instruments))];
    }

    method TradesStream(instrumentIds: seq<string>, action: SubscriptionAction)
      requires Valid()
      modifies this`sent
      ensures Valid() && sent == old(sent) + [TradesRequest(instrumentIds, action)]
    {
      var instruments: seq<TradeInstrument> := [];
      for i := 0 to |instrumentIds|
        invariant sent == old(sent)
        invariant instruments == MapSeq(instrumentIds[..i], TradeEntry)
      {
        MapSeqExtend(instrumentIds, i, TradeEntry);
        instruments := instruments + [TradeInstrument(instrumentIds[i])];
      }
      assert instrumentIds[..|instrumentIds|] == instrumentIds;
      sent := sent + [MarketDataRequest.SubscribeTrades(SubscribeTradesRequest(action, instruments))];
    }

    method OrderBookStream(instrumentIds: seq<string>, action: SubscriptionAction, depth: int32)
      requires Valid()
      modifies this`sent
      ensures Valid() && sent == old(sent) + [OrderBookRequest(instrumentIds, action, depth)]
    {
      var instruments: seq<OrderBookInstrument> := [];
      for i := 0 to |instrumentIds|
        invariant sent == old(sent)
        invariant instruments == MapSeq(instrumentIds[..i], OrderBookEntry(depth))
      {
        MapSeqExtend(instrumentIds, i, OrderBookEntry(depth));
        instruments := instruments + [OrderBookInstrument(instrumentIds[i], depth)];
      }
      assert instrumentIds[..|instrumentIds|] == instrumentIds;
      sent := sent + [MarketDataRequest.SubscribeOrderBook(SubscribeOrderBookRequest(action, instruments))];
    }

    method InfoStream(instrumentIds: seq<string>, action: SubscriptionAction)
      requires Valid()
      modifies this`sent
      ensures Valid() && sent == old(sent) + [InfoRequest(instrumentIds, action)]
    {
      var instruments: seq<InfoInstrument> := [];
      for i := 0 to |instrumentIds|
        invariant sent == old(sent)
        invariant instruments == MapSeq(instrumentIds[..i], InfoEntry)
      {
        MapSeqExtend(instrumentIds, i, InfoEntry);
        instruments := instruments + [InfoInstrument(instrumentIds[i])];
      }
      assert instrumentIds[..|instrumentIds|] == instrumentIds;
      sent := sent + [MarketDataRequest.SubscribeInfo(SubscribeInfoRequest(action, instruments))];
    }
  }

  /**
   * What the session invariant buys: every request in a log of well-formed requests, as
   * `sent` is under `Valid()`, is the output of its kind's builder on its own fields.
   */
  lemma SentRequestsAreBuilt(sent: seq<MarketDataRequest>)
    requires forall i :: 0 <= i < |sent| ==> WellFormed(sent[i])
    ensures forall i :: 0 <= i < |sent| ==> sent[i] == Rebuild(sent[i], DefaultDepth, DefaultInterval)
  {
    forall i | 0 <= i < |sent|
      ensures sent[i] == Rebuild(sent[i], DefaultDepth, DefaultInterval)
    {
      WellFormedRequestsAreBuilt(sent[i], DefaultDepth, DefaultInterval);
    }
  }

  /**
   * A caller's view, using only the contracts above: an order book subscribe and
   * unsubscribe at depth 5 put two requests on the stream that differ only in the
   * action, and a second cancel leaves the first cause in place.
   */
  method OrderBookRoundAndDoubleCancel(stub: MarketDataStreamStub, thread: ThreadContext)
    requires stub.openFailure.None?
    modifies stub, thread
  {
    var created := MarketDataSubscriptionService.Create(stub, thread);
    var service := created.value;
    service.SubscribeOrderbookWithDepth(["FIGI1"], 5);
    service.UnsubscribeOrderbookWithDepth(["FIGI1"], 5);
    assert service.sent == [OrderBookRequest(["FIGI1"], Subscribe, 5), OrderBookRequest(["FIGI1"], Unsubscribe, 5)];
    assert service.sent[0].orderBook.instruments == [OrderBookInstrument("FIGI1", 5)];
    SubscribeAndUnsubscribeDifferOnlyInAction(["FIGI1"], 5, OneMinute, false);
    assert WithAction(service.sent[0], Unsubscribe) == service.sent[1];
    service.Cancel();
    service.Cancel();
    assert service.contextRef.cancellationCause == Some(CancelReason);
    assert |service.sent| == 2;
  }
}
