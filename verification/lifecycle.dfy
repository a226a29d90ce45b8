/** WhenRepeatedEventSink.cs as a whole: the engine together with the sink it
    wraps and its `isDisposed` flag. The wrapped sink is seen only through
    the records it received and how often it was disposed. */
module Lifecycle {
  import opened Events
  import opened Options
  import opened EventSink
  import opened Runs

  /** The wrapped sink: the records handed to it, whether it implements
      `IDisposable`, and how many times its `Dispose` ran. */
  datatype Downstream = Downstream(received: seq<LogEvent>, disposable: bool, disposeCalls: nat)

  datatype Sink = Sink(options: WhenRepeatedOptions, engine: EngineState, isDisposed: bool, wrapped: Downstream)

  /** The constructor: a fresh engine around `wrapped`. */
  function NewSink(wrapped: Downstream, options: WhenRepeatedOptions): (r: Sink)
    ensures r.engine.previous.None? && r.engine.repeatedCounts == 0
    ensures !r.isDisposed
    ensures r.options == options && r.wrapped == wrapped
  {
    Sink(options, Initial(), false, wrapped)
  }

  /** `Emit` on the sink: the engine steps, and the forwarded record, if
      any, is appended to what the wrapped sink received. There is no check
      of `isDisposed`. */
  function SinkEmit(sink: Sink, e: LogEvent): (r: Sink)
    ensures sink.wrapped.received <= r.wrapped.received
    ensures |r.wrapped.received| <= |sink.wrapped.received| + 1
    ensures r.isDisposed == sink.isDisposed && r.options == sink.options
    ensures r.wrapped.disposable == sink.wrapped.disposable
    ensures r.wrapped.disposeCalls == sink.wrapped.disposeCalls
  {
    var step := Emit(sink.options, sink.engine, e);
    sink.(engine := step.state, wrapped := sink.wrapped.(received := sink.wrapped.received + OptionToSeq(step.forwarded)))
  }

  /** `Emit(e0)`, `Emit(e1)`, ... on the sink, in order. */
  function SinkEmitAll(sink: Sink, events: seq<LogEvent>): Sink
    decreases |events|
  {
    if events == [] then sink
    else SinkEmit(SinkEmitAll(sink, events[..|events| - 1]), events[|events| - 1])
  }

  /** `after` is `sink` having run as the trace `t` says: same options,
      flag and disposal record, the engine in the trace's state, and the
      trace's forwarded records appended to the wrapped sink's. */
  ghost predicate FollowsTrace(sink: Sink, after: Sink, t: Trace) {
    && after.options == sink.options
    && after.engine == t.state
    && after.wrapped.received == sink.wrapped.received + t.forwarded
    && after.isDisposed == sink.isDisposed
    && after.wrapped.disposable == sink.wrapped.disposable
    && after.wrapped.disposeCalls == sink.wrapped.disposeCalls
  }

  /** The sink runs the engine and nothing else: after any sequence of
      calls its engine is in the state `Run` reaches, and the wrapped sink
      has received, after what it held before, exactly the records `Run`
      forwards, in order. */
  lemma {:induction false} SinkFollowsRun(sink: Sink, events: seq<LogEvent>)
    ensures FollowsTrace(sink, SinkEmitAll(sink, events), Run(sink.options, sink.engine, events))
    decreases |events|
  {
    if events != [] {
      var init, e := events[..|events| - 1], events[|events| - 1];
      SinkFollowsRun(sink, init);
      RunLastStep(sink.options, sink.engine, events);
      SinkEmitFollows(sink, SinkEmitAll(sink, init), Run(sink.options, sink.engine, init), Run(sink.options, sink.engine, events), e);
    }
  }

  /** One more call keeps the sink in step with the engine's trace. */
  lemma SinkEmitFollows(sink: Sink, mid: Sink, before: Trace, after: Trace, e: LogEvent)
    requires FollowsTrace(sink, mid, before)
    requires after.state == Emit(sink.options, before.state, e).state
    requires after.forwarded == before.forwarded + OptionToSeq(Emit(sink.options, before.state, e).forwarded)
    ensures FollowsTrace(sink, SinkEmit(mid, e), after)
  {
    var forwarded := OptionToSeq(Emit(sink.options, before.state, e).forwarded);
    SinkEmitStep(mid, e);
    assert sink.wrapped.received + before.forwarded + forwarded
        == sink.wrapped.received + (before.forwarded + forwarded);
  }

  /** One call on the sink steps its engine by `Emit` and appends what
      `Emit` forwards to the wrapped sink's records; nothing else moves. */
  lemma SinkEmitStep(sink: Sink, e: LogEvent)
    ensures var r, step := SinkEmit(sink, e), Emit(sink.options, sink.engine, e);
      && r.engine == step.state
      && r.wrapped.received == sink.wrapped.received + OptionToSeq(step.forwarded)
      && r.options == sink.options && r.isDisposed == sink.isDisposed
      && r.wrapped.disposable == sink.wrapped.disposable
      && r.wrapped.disposeCalls == sink.wrapped.disposeCalls
  {
  }

  /** A freshly constructed sink hands its wrapped sink exactly what the
      engine forwards from the initial state. */
  lemma NewSinkForwardsRun(wrapped: Downstream, options: WhenRepeatedOptions, events: seq<LogEvent>)
    ensures var r, t := SinkEmitAll(NewSink(wrapped, options), events), Run(options, Initial(), events);
      && r.engine == t.state
      && r.wrapped.received == wrapped.received + t.forwarded
      && r.options == options
  {
    SinkFollowsRun(NewSink(wrapped, options), events);
  }

  /** `Dispose(bool disposing)`: a no-op once disposed; otherwise the
      wrapped sink is disposed when `disposing` holds and it is disposable,
      and the flag is set. */
  function DisposeCore(sink: Sink, disposing: bool): (r: Sink)
    ensures r.isDisposed
    ensures sink.isDisposed ==> r == sink
    ensures r.options == sink.options && r.engine == sink.engine
    ensures r.wrapped.received == sink.wrapped.received
    ensures r.wrapped.disposable == sink.wrapped.disposable
    ensures sink.wrapped.disposeCalls <= r.wrapped.disposeCalls <= sink.wrapped.disposeCalls + 1
    ensures r.wrapped.disposeCalls == sink.wrapped.disposeCalls + 1 <==>
              !sink.isDisposed && disposing && sink.wrapped.disposable
  {
    if sink.isDisposed then sink
    else
      var wrapped := if disposing && sink.wrapped.disposable
        then sink.wrapped.(disposeCalls := sink.wrapped.disposeCalls + 1)
        else sink.wrapped;
      sink.(wrapped := wrapped, isDisposed := true)
  }

  /** `Dispose()`. */
  function Dispose(sink: Sink): Sink {
    DisposeCore(sink, true)
  }

  /** The finaliser, `Dispose(false)`. */
  function Finalize(sink: Sink): Sink {
    DisposeCore(sink, false)
  }

  /** `Dispose()` called `n` times in a row. */
  function DisposeTimes(sink: Sink, n: nat): Sink
    decreases n
  {
    if n == 0 then sink else DisposeTimes(Dispose(sink), n - 1)
  }

  /** A second `Dispose()` changes nothing. */
  lemma DisposeIsIdempotent(sink: Sink)
    ensures Dispose(Dispose(sink)) == Dispose(sink)
    ensures Dispose(Finalize(sink)) == Finalize(sink)
  {
  }

  /** However often `Dispose()` is called, a disposable wrapped sink of a
      live engine is disposed exactly once. */
  lemma {:induction false} DisposeTimesDisposesOnce(sink: Sink, n: nat)
    requires !sink.isDisposed && sink.wrapped.disposable && n >= 1
    ensures DisposeTimes(sink, n).isDisposed
    ensures DisposeTimes(sink, n).wrapped.disposeCalls == sink.wrapped.disposeCalls + 1
    decreases n
  {
    if n > 1 {
      DisposeAfterDisposeIsNoOp(Dispose(sink), n - 1);
    }
  }

  /** On a disposed sink any number of `Dispose()` calls do nothing. */
  lemma {:induction false} DisposeAfterDisposeIsNoOp(sink: Sink, n: nat)
    requires sink.isDisposed
    ensures DisposeTimes(sink, n) == sink
    decreases n
  {
    if n > 0 {
      DisposeAfterDisposeIsNoOp(Dispose(sink), n - 1);
    }
  }

  /** The finaliser marks the sink disposed without disposing the wrapped
      sink. */
  lemma FinalizeLeavesWrappedAlone(sink: Sink)
    ensures Finalize(sink).isDisposed
    ensures Finalize(sink).wrapped == sink.wrapped
  {
  }

  /** `Emit` does the same whether or not the sink was disposed. */
  lemma EmitIgnoresDisposal(sink: Sink, e: LogEvent)
    ensures SinkEmit(sink.(isDisposed := true), e) == SinkEmit(sink, e).(isDisposed := true)
  {
  }

  /** The engine as a mutable object, for callers that hold one reference
      and call it sequentially. */
  class WhenRepeatedEventSink {
    var sink: Sink

    constructor (wrapped: Downstream, options: WhenRepeatedOptions)
      ensures sink == NewSink(wrapped, options)
    {
      sink := NewSink(wrapped, options);
    }

    method Emit(e: LogEvent)
      modifies this
      ensures sink == SinkEmit(old(sink), e)
    {
      sink := SinkEmit(sink, e);
    }

    method Dispose()
      modifies this
      ensures sink == DisposeCore(old(sink), true)
    {
      sink := DisposeCore(sink, true);
    }

    method Finalize()
      modifies this
      ensures sink == DisposeCore(old(sink), false)
    {
      sink := DisposeCore(sink, false);
    }
  }
}
