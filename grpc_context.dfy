/**
 * The parts of the RPC library that the subscription session relies on, reduced to
 * what the session observes: a cancellable context, the calling thread's current
 * context that `attach`/`detach` switch, and the stub call that opens the stream.
 */
module GrpcContext {
  import opened Wrappers

  /** A cancellable execution scope. Once cancelled it stays cancelled and keeps its first cause. */
  class Context {
    var cancellationCause: Option<string>

    /** `Context.current().fork().withCancellation()`: a new scope that is still live. */
    constructor Fork()
      ensures cancellationCause == None
    {
      cancellationCause := None;
    }

    predicate IsCancelled()
      reads this
    {
      cancellationCause.Some?
    }

    /** `cancel(cause)`: cancels a live scope with `cause`; on a cancelled one it changes nothing. */
    method Cancel(cause: string)
      modifies this
      ensures IsCancelled()
      ensures cancellationCause == if old(cancellationCause).Some? then old(cancellationCause) else Some(cause)
    {
      if cancellationCause.None? {
        cancellationCause := Some(cause);
      }
    }
  }

  /** The calling thread's current context, as `Context.current()` returns it. */
  class ThreadContext {
    var current: Context

    constructor (initial: Context)
      ensures current == initial
    {
      current := initial;
    }

    /** `context.attach()`: makes `context` current and returns the context it replaced. */
    method Attach(context: Context) returns (previous: Context)
      modifies this
      ensures current == context && previous == old(current)
    {
      previous := current;
      current := context;
    }

    /** `context.detach(toRestore)`: makes `toRestore` current again. */
    method Detach(context: Context, toRestore: Context)
      modifies this
      ensures current == toRestore
    {
      current := toRestore;
    }
  }

  /**
   * The generated stub's `marketDataStream`. Whether the transport opens the stream
   * is not modelled: `openFailure` is given from outside. Each attempt records the
   * context that was current when it was made.
   */
  class MarketDataStreamStub {
    const openFailure: Option<string>
    var openedUnder: seq<Context>

    constructor (openFailure: Option<string>)
      ensures this.openFailure == openFailure && openedUnder == []
    {
      this.openFailure := openFailure;
      openedUnder := [];
    }

    method MarketDataStream(thread: ThreadContext) returns (r: Result<(), string>)
      modifies this
      ensures openedUnder == old(openedUnder) + [thread.current]
      ensures r == if openFailure.Some? then Failure(openFailure.value) else Success(())
    {
      openedUnder := openedUnder + [thread.current];
      r := if openFailure.Some? then Failure(openFailure.value) else Success(());
    }
  }
}
