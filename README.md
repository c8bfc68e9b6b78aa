# Market-data subscription session, modelled in Dafny

This project models the market-data subscription session of the Java SDK for the
brokerage's trading API (`MarketDataSubscriptionService`). The session opens one
bidirectional market-data stream. It multiplexes five subscription kinds over that
stream: trades, order book, candles, instrument info and last price. Each public
subscribe or unsubscribe call sends exactly one `MarketDataRequest`, and `cancel()`
cancels the context the stream was opened under.

Layout, one module per file:

- `wrappers.dfy` (`Wrappers`): `Option` and `Result`.
- `sequences.dfy` (`Sequences`): `MapSeq`, the per-instrument loop the builders run.
- `contract.dfy` (`MarketDataContract`): the protobuf messages the session builds, as datatypes.
  The `payload` oneof of `MarketDataRequest` is a datatype with five constructors.
- `control_messages.dfy` (`ControlMessages`): the five builders as pure functions.
  It also holds views of a request (`KindOf`, `ActionOf`, `InstrumentIds`, `WithAction`, `WellFormed`)
  and the lemmas that relate builders and views.
- `grpc_context.dfy` (`GrpcContext`): the RPC library pieces the session uses, reduced to what it observes.
  These are a cancellable `Context`, the thread's current context, and the stub call that opens the stream.
- `subscription_service.dfy` (`MarketDataSubscription`): the session as a class.
  `sent` is the sequence of requests given to the outbound observer's `onNext`.
  `contextRef` is the stored context. The private `*Stream` methods keep the source's loop over the ids.

Java overloads get distinct names: `SubscribeOrderbookWithDepth`, `SubscribeCandlesWaitingClose`,
`SubscribeCandlesAtInterval` (interval only), `SubscribeCandlesWithInterval` (interval and
`waitingClose`) and `UnsubscribeCandlesAtInterval`. The Java constructor can throw, so it becomes
the static method `Create`, which returns a `Result`.

Points where the code's behaviour is easy to mistake, and what the model does:

- On a failed stream open, the code detaches the new context but does not cancel it.
  `Create` therefore leaves that context live.
- The code builds its context with `fork().withCancellation()`. In the RPC library `fork()` does not
  pass on the parent's cancellation, so cancelling the ambient context does not cancel the session.
  The model keeps no parent link.
- The order book depth is passed through as any `int`, unvalidated, and so the model takes any `int32`.
- The code defines nothing for a send after cancellation: `observer.onNext` is called in every state.
  The model appends the request to `sent` in every state.

## Model

| member | source | states |
|---|---|---|
| Sequences.MapSeq | core/src/main/java/ru/tinkoff/piapi/core/stream/MarketDataSubscriptionService.java:132-138 | one output per input element, the i-th being the image of the i-th input, in input order |
| ControlMessages.TradesRequest | core/src/main/java/ru/tinkoff/piapi/core/stream/MarketDataSubscriptionService.java:164-178 | a trades request with the given action and one entry per id, entry i carrying id i |
| ControlMessages.OrderBookRequest | core/src/main/java/ru/tinkoff/piapi/core/stream/MarketDataSubscriptionService.java:182-198 | an order book request with the given action; entry i carries id i and the given depth, unvalidated |
| ControlMessages.CandlesRequest | core/src/main/java/ru/tinkoff/piapi/core/stream/MarketDataSubscriptionService.java:124-142 | a candles request: entry i carries id i and the interval; waitingClose is set once, on the request |
| ControlMessages.InfoRequest | core/src/main/java/ru/tinkoff/piapi/core/stream/MarketDataSubscriptionService.java:202-213 | an instrument-status request with the given action and one entry per id, in order |
| ControlMessages.LastPriceRequest | core/src/main/java/ru/tinkoff/piapi/core/stream/MarketDataSubscriptionService.java:146-160 | a last-price request with the given action and one entry per id, in order |
| ControlMessages.BuiltRequestsDescribeTheirInputs | core/src/main/java/ru/tinkoff/piapi/core/stream/MarketDataSubscriptionService.java:124-215 | each builder's request is of its own kind and carries the given action. Its instrument ids are exactly the input ids in order: no dedup, no filtering, none for an empty list. It is well formed |
| ControlMessages.SubscribeAndUnsubscribeDifferOnlyInAction | core/src/main/java/ru/tinkoff/piapi/core/stream/MarketDataSubscriptionService.java:17-18 | for the same ids and parameters, the subscribe and unsubscribe requests of every kind differ, and only in the action |
| ControlMessages.WellFormedRequestsAreBuilt | core/src/main/java/ru/tinkoff/piapi/core/stream/MarketDataSubscriptionService.java:124-215 | converse of the above: every well-formed request is its kind's builder applied to its own ids, action and parameters (`Rebuild`) |
| MarketDataSubscription.SentRequestsAreBuilt | core/src/main/java/ru/tinkoff/piapi/core/stream/MarketDataSubscriptionService.java:124-215 | every request in a log of well-formed requests, as `sent` is under the session invariant `Valid()`, equals its kind's builder on its own fields |
| MarketDataSubscription.MarketDataSubscriptionService.Opened | core/src/main/java/ru/tinkoff/piapi/core/stream/MarketDataSubscriptionService.java:27-28 | a session whose stream has sent nothing yet and whose stored context is the given one |
| MarketDataSubscription.MarketDataSubscriptionService.Create | core/src/main/java/ru/tinkoff/piapi/core/stream/MarketDataSubscriptionService.java:20-32 | forks a live context and opens the stream with it current. The thread's context is restored in every case. The new context is stored only when the stream opened; otherwise the open failure is returned |
| MarketDataSubscription.MarketDataSubscriptionService.SubscribeTrades | core/src/main/java/ru/tinkoff/piapi/core/stream/MarketDataSubscriptionService.java:34-36 | appends exactly one trades request with SUBSCRIBE |
| MarketDataSubscription.MarketDataSubscriptionService.UnsubscribeTrades | core/src/main/java/ru/tinkoff/piapi/core/stream/MarketDataSubscriptionService.java:38-40 | appends exactly one trades request with UNSUBSCRIBE |
| MarketDataSubscription.MarketDataSubscriptionService.SubscribeOrderbook | core/src/main/java/ru/tinkoff/piapi/core/stream/MarketDataSubscriptionService.java:42-44 | appends exactly the request of the depth-1 overload |
| MarketDataSubscription.MarketDataSubscriptionService.SubscribeOrderbookWithDepth | core/src/main/java/ru/tinkoff/piapi/core/stream/MarketDataSubscriptionService.java:46-48 | appends exactly one order book request with SUBSCRIBE and the given depth |
| MarketDataSubscription.MarketDataSubscriptionService.UnsubscribeOrderbook | core/src/main/java/ru/tinkoff/piapi/core/stream/MarketDataSubscriptionService.java:50-52 | appends exactly the request of the depth-1 unsubscribe overload |
| MarketDataSubscription.MarketDataSubscriptionService.UnsubscribeOrderbookWithDepth | core/src/main/java/ru/tinkoff/piapi/core/stream/MarketDataSubscriptionService.java:54-56 | appends exactly one order book request with UNSUBSCRIBE and the given depth |
| MarketDataSubscription.MarketDataSubscriptionService.SubscribeInfo | core/src/main/java/ru/tinkoff/piapi/core/stream/MarketDataSubscriptionService.java:58-60 | appends exactly one instrument-status request with SUBSCRIBE |
| MarketDataSubscription.MarketDataSubscriptionService.UnsubscribeInfo | core/src/main/java/ru/tinkoff/piapi/core/stream/MarketDataSubscriptionService.java:62-64 | appends exactly one instrument-status request with UNSUBSCRIBE |
| MarketDataSubscription.MarketDataSubscriptionService.SubscribeCandles | core/src/main/java/ru/tinkoff/piapi/core/stream/MarketDataSubscriptionService.java:70-72 | appends the candles request with SUBSCRIBE, interval ONE_MINUTE and waitingClose false |
| MarketDataSubscription.MarketDataSubscriptionService.SubscribeCandlesWaitingClose | core/src/main/java/ru/tinkoff/piapi/core/stream/MarketDataSubscriptionService.java:79-81 | appends the candles request with SUBSCRIBE, interval ONE_MINUTE and the given waitingClose |
| MarketDataSubscription.MarketDataSubscriptionService.SubscribeCandlesAtInterval | core/src/main/java/ru/tinkoff/piapi/core/stream/MarketDataSubscriptionService.java:88-90 | appends the candles request with SUBSCRIBE, the given interval and waitingClose false |
| MarketDataSubscription.MarketDataSubscriptionService.SubscribeCandlesWithInterval | core/src/main/java/ru/tinkoff/piapi/core/stream/MarketDataSubscriptionService.java:98-100 | appends the candles request with SUBSCRIBE, the given interval and the given waitingClose |
| MarketDataSubscription.MarketDataSubscriptionService.UnsubscribeCandles | core/src/main/java/ru/tinkoff/piapi/core/stream/MarketDataSubscriptionService.java:102-104 | appends the candles request with UNSUBSCRIBE, interval ONE_MINUTE and waitingClose false |
| MarketDataSubscription.MarketDataSubscriptionService.UnsubscribeCandlesAtInterval | core/src/main/java/ru/tinkoff/piapi/core/stream/MarketDataSubscriptionService.java:106-108 | appends the candles request with UNSUBSCRIBE and the given interval; waitingClose is always false |
| MarketDataSubscription.MarketDataSubscriptionService.SubscribeLastPrices | core/src/main/java/ru/tinkoff/piapi/core/stream/MarketDataSubscriptionService.java:110-112 | appends exactly one last-price request with SUBSCRIBE |
| MarketDataSubscription.MarketDataSubscriptionService.UnsubscribeLastPrices | core/src/main/java/ru/tinkoff/piapi/core/stream/MarketDataSubscriptionService.java:114-116 | appends exactly one last-price request with UNSUBSCRIBE |
| MarketDataSubscription.MarketDataSubscriptionService.Cancel | core/src/main/java/ru/tinkoff/piapi/core/stream/MarketDataSubscriptionService.java:118-121 | sends nothing and keeps the stored reference. A live stored context is cancelled with "canceled by user"; an already-cancelled one keeps its first cause. With none stored, nothing changes |
| MarketDataSubscription.MarketDataSubscriptionService.CandlesStream | core/src/main/java/ru/tinkoff/piapi/core/stream/MarketDataSubscriptionService.java:124-144 | the loop builds the entries in id order; the one finished candles request is then appended, and the session invariant holds |
| MarketDataSubscription.MarketDataSubscriptionService.LastPricesStream | core/src/main/java/ru/tinkoff/piapi/core/stream/MarketDataSubscriptionService.java:146-162 | the loop builds the entries in id order; the one finished last-price request is then appended |
| MarketDataSubscription.MarketDataSubscriptionService.TradesStream | core/src/main/java/ru/tinkoff/piapi/core/stream/MarketDataSubscriptionService.java:164-180 | the loop builds the entries in id order; the one finished trades request is then appended |
| MarketDataSubscription.MarketDataSubscriptionService.OrderBookStream | core/src/main/java/ru/tinkoff/piapi/core/stream/MarketDataSubscriptionService.java:182-200 | the loop builds the entries in id order; the one finished order book request is then appended, with one depth throughout |
| MarketDataSubscription.MarketDataSubscriptionService.InfoStream | core/src/main/java/ru/tinkoff/piapi/core/stream/MarketDataSubscriptionService.java:202-215 | the loop builds the entries in id order; the one finished instrument-status request is then appended |
| GrpcContext.Context.Fork | core/src/main/java/ru/tinkoff/piapi/core/stream/MarketDataSubscriptionService.java:24 | a newly forked cancellable context is live |
| GrpcContext.Context.Cancel | core/src/main/java/ru/tinkoff/piapi/core/stream/MarketDataSubscriptionService.java:120 | cancelling is one-way, and the first cause is kept |
| GrpcContext.ThreadContext.Attach | core/src/main/java/ru/tinkoff/piapi/core/stream/MarketDataSubscriptionService.java:25 | makes the context current and returns the one it replaced |
| GrpcContext.ThreadContext.Detach | core/src/main/java/ru/tinkoff/piapi/core/stream/MarketDataSubscriptionService.java:30 | restores the context given |
| GrpcContext.MarketDataStreamStub.MarketDataStream | core/src/main/java/ru/tinkoff/piapi/core/stream/MarketDataSubscriptionService.java:27 | records the context current at the attempt; fails exactly when the transport reports failure |

## Left out

- Concurrency: the `AtomicReference` holding the context is a plain field.
  Interleavings of `cancel()` with subscribe calls on other threads are not modelled.
- The inbound dispatcher `StreamObserverWithProcessor`, with the stream processor and error callback, is not part of this model.
- From the RPC library, fork, attach and detach are modelled in `GrpcContext`. Two things are not modelled:
  the stream's teardown when its context is cancelled, and cancellation arriving from a parent context.
  Whether opening the stream succeeds is given from outside (`openFailure`).
- What the transport does with a request sent after cancellation is not modelled. Every send is appended to `sent`.
- Wire encoding of the protobuf messages is not modelled. Neither are fields of the messages that the session never sets,
  such as the instruments' `figi` and the other variants of `MarketDataRequest`'s oneof.
- `SubscriptionInterval` is modelled with UNSPECIFIED, ONE_MINUTE and FIVE_MINUTES only. The session copies a
  recognised interval onto every entry, so no contract depends on the other values. `SubscriptionAction`'s
  UNSPECIFIED value is never sent and is left out.
- Null and unrecognised arguments are not modelled, so "each call appends exactly one request" holds only for
  non-null ids and a recognised, non-null interval. The interval parameters (lines 88, 98 and 106) and the
  elements of the id lists carry no non-null annotation. The generated setters (`setInterval` at line 135,
  `setInstrumentId` at lines 136, 154, 172, 192 and 208) throw on null, and `setInterval` also throws on
  `UNRECOGNIZED`. Such a call throws inside the loop and sends nothing. A null interval with an empty id list
  still sends a request. `seq<string>` and the three-value `SubscriptionInterval` cannot express these cases.
- `UsersService` and the orders-service tests are unary RPC wrappers around helpers that are not part of this model.
- `DefaultValues` holds only a constant equal to the session's own default interval, modelled as `DefaultInterval`.
