/** WhenRepeatedEventSink.cs, `Emit`: one call is a transition of the
    engine's state that forwards at most one event downstream and may write
    the repeat count into the current event's properties. */
module EventSink {
  import opened Wrappers
  import opened Text
  import opened Events
  import opened Options

  /** `previousLogEvent` and `repeatedCounts`. */
  datatype EngineState = EngineState(previous: Option<LogEvent>, repeatedCounts: nat)

  /** A freshly constructed engine: no previous event, count zero. */
  function Initial(): EngineState {
    EngineState(None, 0)
  }

  /** The outcome of one `Emit`: the new state, the record handed to the
      wrapped sink (if any), and the current event as it stands once `Emit`
      has returned, with every property write applied. */
  datatype Emitted = Emitted(state: EngineState, forwarded: Option<LogEvent>, event: LogEvent)

  /** The name of the property the count goes into: the marker's rendered
      text with every double quote removed, or the empty string without a
      marker. For a string marker that is the string itself, except that
      each double quote in it turns into the backslash that escaped it. */
  function TargetName(e: LogEvent): (name: string)
    ensures '"' !in name
    ensures MarkerKey !in e.properties ==> name == []
    ensures MarkerKey in e.properties ==> name == RemoveQuotes(Render(e.properties[MarkerKey]))
    ensures MarkerKey in e.properties && e.properties[MarkerKey].Str? ==>
              name == QuotesToBackslashes(e.properties[MarkerKey].s)
    ensures MarkerKey in e.properties && e.properties[MarkerKey].Other? && '"' !in e.properties[MarkerKey].text ==>
              name == e.properties[MarkerKey].text
  {
    if MarkerKey in e.properties then
      var v := e.properties[MarkerKey];
      RemoveQuotesKeepsQuoteFree(Render(v));
      if v.Str? then
        RemoveQuotesOfQuoted(v.s);
        RemoveQuotes(Render(v))
      else RemoveQuotes(Render(v))
    else []
  }

  /** Stores `Count(n)` under `name` unless the name is blank. Nothing but
      that one property changes. */
  function WriteCount(e: LogEvent, name: string, n: nat): (r: LogEvent)
    ensures r.timestamp == e.timestamp && r.level == e.level && r.message == e.message
    ensures IsBlank(name) ==> r == e
    ensures !IsBlank(name) ==> name in r.properties && r.properties[name] == Count(n)
    ensures r.properties.Keys <= e.properties.Keys + {name}
    ensures forall k {:trigger r.properties[k]} :: k in e.properties && k != name ==> k in r.properties && r.properties[k] == e.properties[k]
  {
    if IsBlank(name) then e else e.(properties := e.properties[name := Count(n)])
  }

  /** `options.OnRepeat?.Invoke(current, previous)`: the substitute record,
      or `None` when no callback is configured or it returns null. */
  function Replacement(onRepeat: Option<OnRepeatFn>, current: LogEvent, previous: Option<LogEvent>): Option<LogEvent> {
    match onRepeat
    case None => None
    case Some(f) => f(current, previous)
  }

  /** One `Emit` call, in the source's order. The strategy is read from the
      untouched event and the state before the call; the count is written
      provisionally before the comparison, and rewritten with the new count
      only after the record has been forwarded on the past-timeout path. */
  function Emit(options: WhenRepeatedOptions, s: EngineState, logEvent: LogEvent): (r: Emitted)
    ensures r.event.timestamp == logEvent.timestamp
    ensures r.event.level == logEvent.level
    ensures r.event.message == logEvent.message
    ensures r.event.properties.Keys <= logEvent.properties.Keys + {TargetName(logEvent)}
    ensures forall k {:trigger r.event.properties[k]} :: k in logEvent.properties && k != TargetName(logEvent) ==>
              k in r.event.properties && r.event.properties[k] == logEvent.properties[k]
    ensures r.state.previous == s.previous || r.state.previous == Some(r.event)
    ensures r.state.repeatedCounts == 0
         || r.state.repeatedCounts == s.repeatedCounts
         || r.state.repeatedCounts == s.repeatedCounts + 1
    ensures r.forwarded.Some? && r.forwarded.value != r.event ==> options.onRepeat.Some?
  {
    var firstStrategy := options.firstStrategy(logEvent, s.previous);
    var name := TargetName(logEvent);
    var current := WriteCount(logEvent, name, s.repeatedCounts);
    if s.previous.Some? && options.compare(current, s.previous) then
      if current.timestamp - s.previous.value.timestamp > options.timeout(current, s.previous) then
        var count := s.repeatedCounts + 1;
        if firstStrategy == WhenRepeated && count == 1 then
          Emitted(EngineState(s.previous, count), Some(current), current)
        else
          var replacement := Replacement(options.onRepeat, current, s.previous);
          var final := WriteCount(current, name, count);
          Emitted(EngineState(Some(final), count), Some(replacement.Coalesce(final)), final)
      else
        Emitted(EngineState(Some(current), s.repeatedCounts), None, current)
    else
      var final := WriteCount(current, name, 0);
      var state := EngineState(Some(final), 0);
      match firstStrategy
      case Default => Emitted(state, Some(final), final)
      case AsRepeated => Emitted(state, Some(Replacement(options.onRepeat, final, Some(final)).Coalesce(final)), final)
      case Ignore => Emitted(state, None, final)
      case WhenRepeated => Emitted(state, None, final)
  }

  /** The current event after the provisional write of the old count: what
      `compare`, `timeout` and `onRepeat` are handed. */
  function Provisional(s: EngineState, e: LogEvent): LogEvent {
    WriteCount(e, TargetName(e), s.repeatedCounts)
  }

  /** The event continues the current run. */
  predicate Continues(options: WhenRepeatedOptions, s: EngineState, e: LogEvent) {
    s.previous.Some? && options.compare(Provisional(s, e), s.previous)
  }

  /** The event continues the run and the quiet period since the previous
      event is over (strictly longer than the timeout). */
  predicate PastTimeout(options: WhenRepeatedOptions, s: EngineState, e: LogEvent) {
    && Continues(options, s, e)
    && e.timestamp - s.previous.value.timestamp > options.timeout(Provisional(s, e), s.previous)
  }

  /** The first past-timeout repeat of a run under the `WhenRepeated` strategy. */
  predicate FirstSurfacing(options: WhenRepeatedOptions, s: EngineState, e: LogEvent) {
    && PastTimeout(options, s, e)
    && options.firstStrategy(e, s.previous) == WhenRepeated
    && s.repeatedCounts == 0
  }

  /** A second write under the same name replaces the first. */
  lemma WriteCountOverwrites(e: LogEvent, name: string, first: nat, second: nat)
    ensures WriteCount(WriteCount(e, name, first), name, second) == WriteCount(e, name, second)
  {
    if !IsBlank(name) {
      assert e.properties[name := Count(first)][name := Count(second)] == e.properties[name := Count(second)];
    }
  }

  /** A new run: count and previous event reset, and the first strategy,
      computed from the event and the previous event as they were before the
      call, decides what is forwarded. `AsRepeated` hands the event to
      `onRepeat` as both current and previous. */
  lemma EmitStartsRun(options: WhenRepeatedOptions, s: EngineState, e: LogEvent)
    requires !Continues(options, s, e)
    ensures var r := Emit(options, s, e);
      && r.state == EngineState(Some(r.event), 0)
      && r.event == WriteCount(e, TargetName(e), 0)
      && (options.firstStrategy(e, s.previous) == Default ==> r.forwarded == Some(r.event))
      && (options.firstStrategy(e, s.previous) == AsRepeated ==>
            r.forwarded == Some(Replacement(options.onRepeat, r.event, Some(r.event)).Coalesce(r.event)))
      && (options.firstStrategy(e, s.previous) in {Ignore, WhenRepeated} ==> r.forwarded == None)
  {
    var name := TargetName(e);
    var final := WriteCount(WriteCount(e, name, s.repeatedCounts), name, 0);
    WriteCountOverwrites(e, name, s.repeatedCounts, 0);
    assert final == WriteCount(e, name, 0);
    assert Emit(options, s, e).event == final;
    assert Emit(options, s, e).state == EngineState(Some(final), 0);
  }

  /** A repeat inside the quiet period: nothing forwarded, the count kept,
      and the event becomes the previous one, so the window slides from the
      last processed occurrence. */
  lemma EmitWithinTimeout(options: WhenRepeatedOptions, s: EngineState, e: LogEvent)
    requires Continues(options, s, e) && !PastTimeout(options, s, e)
    ensures var r := Emit(options, s, e);
      && r.forwarded == None
      && r.state == EngineState(Some(r.event), s.repeatedCounts)
      && r.event == Provisional(s, e)
  {
  }

  /** A repeat after the quiet period (other than the first surfacing under
      `WhenRepeated`): the count goes up by one and exactly one record is
      forwarded, the substitute from `onRepeat(event, previous)` or else the
      event itself with its final properties. */
  lemma EmitPastTimeout(options: WhenRepeatedOptions, s: EngineState, e: LogEvent)
    requires PastTimeout(options, s, e) && !FirstSurfacing(options, s, e)
    ensures var r := Emit(options, s, e);
      && r.state == EngineState(Some(r.event), s.repeatedCounts + 1)
      && r.event == WriteCount(e, TargetName(e), s.repeatedCounts + 1)
      && r.forwarded == Some(Replacement(options.onRepeat, Provisional(s, e), s.previous).Coalesce(r.event))
  {
    var name := TargetName(e);
    var current := WriteCount(e, name, s.repeatedCounts);
    var count := s.repeatedCounts + 1;
    var final := WriteCount(current, name, count);
    assert current == Provisional(s, e);
    WriteCountOverwrites(e, name, s.repeatedCounts, count);
    assert final == WriteCount(e, name, count);
    assert options.firstStrategy(e, s.previous) != WhenRepeated || count != 1;
    assert Emit(options, s, e) ==
      Emitted(EngineState(Some(final), count), Some(Replacement(options.onRepeat, current, s.previous).Coalesce(final)), final);
  }

  /** The first surfacing under `WhenRepeated` forwards the event as it is,
      never consults `onRepeat`, and returns early: the count becomes one but
      the previous event stays the old one. */
  lemma EmitFirstSurfacing(options: WhenRepeatedOptions, s: EngineState, e: LogEvent, other: Option<OnRepeatFn>)
    requires FirstSurfacing(options, s, e)
    ensures var r := Emit(options, s, e);
      && r.forwarded == Some(r.event)
      && r.event == Provisional(s, e)
      && r.state == EngineState(s.previous, 1)
      && Emit(options.(onRepeat := other), s, e) == r
  {
  }

  /** What the marker target reads once `Emit` returns: the count after the
      call, except on the early return of the first surfacing, where only
      the provisional write of the old count happened. A blank name leaves
      the event untouched, and no other property ever changes. */
  lemma EmitMarkerWrites(options: WhenRepeatedOptions, s: EngineState, e: LogEvent)
    ensures var r := Emit(options, s, e);
      && (IsBlank(TargetName(e)) ==> r.event == e)
      && r.event == WriteCount(e, TargetName(e),
           if FirstSurfacing(options, s, e) then s.repeatedCounts else r.state.repeatedCounts)
  {
    if !Continues(options, s, e) {
      EmitStartsRun(options, s, e);
    } else if !PastTimeout(options, s, e) {
      EmitWithinTimeout(options, s, e);
    } else if FirstSurfacing(options, s, e) {
      EmitFirstSurfacing(options, s, e, options.onRepeat);
    } else {
      EmitPastTimeout(options, s, e);
    }
  }

  /** Without an `onRepeat` callback, a forwarded event that carries a
      marker reads the count in effect once `Emit` returns (except on the
      early return of the first surfacing): 0 for the first event of a run,
      then 1, 2, ... for the repeats that surface. */
  lemma ForwardedEventReadsCount(options: WhenRepeatedOptions, s: EngineState, e: LogEvent)
    requires options.onRepeat.None?
    requires !IsBlank(TargetName(e))
    requires Emit(options, s, e).forwarded.Some?
    requires !FirstSurfacing(options, s, e)
    ensures var r := Emit(options, s, e);
      && r.forwarded == Some(r.event)
      && TargetName(e) in r.event.properties
      && r.event.properties[TargetName(e)] == Count(r.state.repeatedCounts)
  {
    EmitMarkerWrites(options, s, e);
  }

  /** The count after a call, by what the call was. */
  lemma EmitCount(options: WhenRepeatedOptions, s: EngineState, e: LogEvent)
    ensures var r := Emit(options, s, e);
      && (!Continues(options, s, e) ==> r.state.repeatedCounts == 0)
      && (PastTimeout(options, s, e) ==> r.state.repeatedCounts == s.repeatedCounts + 1)
      && (Continues(options, s, e) && !PastTimeout(options, s, e) ==> r.state.repeatedCounts == s.repeatedCounts)
  {
  }

  /** An event without a marker is neither written to nor changed. */
  lemma NoMarkerNoWrites(options: WhenRepeatedOptions, s: EngineState, e: LogEvent)
    requires MarkerKey !in e.properties
    ensures Provisional(s, e) == e
    ensures Emit(options, s, e).event == e
  {
  }
}
