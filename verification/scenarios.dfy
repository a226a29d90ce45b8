/** The in-memory test scenarios of the repository, replayed on the model
    with explicit timestamps in ticks in place of the tests' sleeps. */
module Scenarios {
  import opened Wrappers
  import opened Text
  import opened Events
  import opened Options
  import opened EventSink
  import opened Enricher
  import opened Extensions
  import opened Lifecycle

  const DefaultMessage: string := "DefaultMessage"
  const RepeatedMessage: string := "RepeatedMessage"
  const RepeatCount: string := "repeatCount"

  /** An information event with the given message and no properties. */
  function Info(t: int, message: string): LogEvent {
    LogEvent(t, Information, message, map[])
  }

  /** The tests' `onRepeat`: a new event with the repeated message. */
  function ToRepeated(current: LogEvent, previous: Option<LogEvent>): Option<LogEvent> {
    Some(LogEvent(current.timestamp, current.level, RepeatedMessage, map[]))
  }

  function ReturnsNull(current: LogEvent, previous: Option<LogEvent>): Option<LogEvent> {
    None
  }

  function Zero(current: LogEvent, previous: Option<LogEvent>): int {
    0
  }

  function AlwaysDefault(current: LogEvent, previous: Option<LogEvent>): OnFirstStrategy {
    Default
  }

  function OneSecond(current: LogEvent, previous: Option<LogEvent>): int {
    TicksPerSecond
  }

  /** Timeout zero, three identical messages: the first forwarded as it is,
      the other two through `onRepeat`. */
  lemma TimeoutZeroRepeatsEveryRepeat()
    ensures var o := FromTimeout(Some(ToRepeated), Some(Zero));
      var r1 := Emit(o, Initial(), Info(0, DefaultMessage));
      var r2 := Emit(o, r1.state, Info(1, DefaultMessage));
      var r3 := Emit(o, r2.state, Info(2, DefaultMessage));
      && r1.forwarded == Some(Info(0, DefaultMessage))
      && r2.forwarded == Some(Info(1, RepeatedMessage))
      && r3.forwarded == Some(Info(2, RepeatedMessage))
  {
  }

  /** Timeout one second: two messages at once, a third after more than a
      second. The second is suppressed, the third forwarded through
      `onRepeat`. */
  lemma TimeoutOneSecondSuppressesEarlyRepeat()
    ensures var o := FromTimeout(Some(ToRepeated), Some(OneSecond));
      var r1 := Emit(o, Initial(), Info(0, DefaultMessage));
      var r2 := Emit(o, r1.state, Info(1, DefaultMessage));
      var r3 := Emit(o, r2.state, Info(TicksPerSecond + 2, DefaultMessage));
      && r1.forwarded == Some(Info(0, DefaultMessage))
      && r2.forwarded == None
      && r3.forwarded == Some(Info(TicksPerSecond + 2, RepeatedMessage))
  {
  }

  /** `onRepeat` returning null, three messages at once: only the first
      is forwarded. */
  lemma NullOnRepeatLogsOnlyFirst()
    ensures var o := FromTimeout(Some(ReturnsNull), Some(OneSecond));
      var r1 := Emit(o, Initial(), Info(0, DefaultMessage));
      var r2 := Emit(o, r1.state, Info(1, DefaultMessage));
      var r3 := Emit(o, r2.state, Info(2, DefaultMessage));
      && r1.forwarded == Some(Info(0, DefaultMessage))
      && r2.forwarded == None
      && r3.forwarded == None
  {
  }

  /** The window slides: events 0.6 s apart with a one-second timeout are
      all suppressed after the first, although the third comes 1.2 s after
      the first. */
  lemma WindowSlidesFromLastProcessed()
    ensures var o := FromTimeout(Some(ToRepeated), Some(OneSecond));
      var r1 := Emit(o, Initial(), Info(0, DefaultMessage));
      var r2 := Emit(o, r1.state, Info(6_000_000, DefaultMessage));
      var r3 := Emit(o, r2.state, Info(12_000_000, DefaultMessage));
      && r1.forwarded == Some(Info(0, DefaultMessage))
      && r2.forwarded == None
      && r3.forwarded == None
      && r3.state == EngineState(Some(Info(12_000_000, DefaultMessage)), 0)
  {
  }

  function WhenRepeatedPolicy(): WhenRepeatedOptions {
    FromFunctions(Some(ToRepeated), None, Some(OneSecond),
      Some((c: LogEvent, p: Option<LogEvent>) => WhenRepeated))
  }

  /** `WhenRepeated`, a message twice at once, then another message, then
      the first message twice at once: nothing is forwarded at all. */
  lemma WhenRepeatedHidesUnsurfacedRuns()
    ensures var o := WhenRepeatedPolicy();
      var r1 := Emit(o, Initial(), Info(0, DefaultMessage));
      var r2 := Emit(o, r1.state, Info(1, DefaultMessage));
      var r3 := Emit(o, r2.state, Info(TicksPerSecond + 2, RepeatedMessage));
      var r4 := Emit(o, r3.state, Info(TicksPerSecond + 3, DefaultMessage));
      var r5 := Emit(o, r4.state, Info(TicksPerSecond + 4, DefaultMessage));
      r1.forwarded == r2.forwarded == r3.forwarded == r4.forwarded == r5.forwarded == None
  {
  }

  /** `WhenRepeated`, a message and the same message more than a second
      later: the second is forwarded unmodified, not through `onRepeat`. */
  lemma WhenRepeatedSurfacesSecondUnmodified()
    ensures var o := WhenRepeatedPolicy();
      var r1 := Emit(o, Initial(), Info(0, DefaultMessage));
      var r2 := Emit(o, r1.state, Info(TicksPerSecond + 1, DefaultMessage));
      && r1.forwarded == None
      && r2.forwarded == Some(Info(TicksPerSecond + 1, DefaultMessage))
      && r2.state == EngineState(Some(Info(0, DefaultMessage)), 1)
  {
  }

  /** `AsRepeated`: a lone message already goes through `onRepeat`. */
  lemma AsRepeatedTransformsFirst()
    ensures var o := FromFunctions(Some(ToRepeated), None, Some(OneSecond),
                       Some((c: LogEvent, p: Option<LogEvent>) => AsRepeated));
      Emit(o, Initial(), Info(0, DefaultMessage)).forwarded == Some(Info(0, RepeatedMessage))
  {
  }

  /** `Ignore` with timeout zero, a message twice: only the second is
      forwarded, as it is. */
  lemma IgnoreLogsSecond()
    ensures var o := FromFunctions(None, None, Some(Zero),
                       Some((c: LogEvent, p: Option<LogEvent>) => Ignore));
      var r1 := Emit(o, Initial(), Info(0, DefaultMessage));
      var r2 := Emit(o, r1.state, Info(1, DefaultMessage));
      && r1.forwarded == None
      && r2.forwarded == Some(Info(1, DefaultMessage))
  {
  }

  /** The count of a forwarded event under a property name. */
  function CountIn(forwarded: Option<LogEvent>, name: string): Option<nat> {
    if forwarded.Some? && name in forwarded.value.properties && forwarded.value.properties[name].Count?
    then Some(forwarded.value.properties[name].n)
    else None
  }

  /** The policy of the enrichment test: default comparison, timeout zero,
      `Default` strategy, no `onRepeat`. */
  ghost predicate ZeroTimeoutDefault(o: WhenRepeatedOptions) {
    && o.onRepeat.None?
    && (forall c, p :: o.compare(c, p) == DefaultCompare(c, p))
    && (forall c, p :: o.timeout(c, p) == 0)
    && (forall c, p :: o.firstStrategy(c, p) == Default)
  }

  /** A marked event that starts a run is forwarded with 0 written under
      the target, and becomes the previous event. */
  lemma MarkedStart(o: WhenRepeatedOptions, s: EngineState, e: LogEvent, name: string)
    requires ZeroTimeoutDefault(o) && !IsBlank(name) && TargetName(e) == name
    requires !Continues(o, s, e)
    ensures var w := WriteCount(e, name, 0);
      Emit(o, s, e) == Emitted(EngineState(Some(w), 0), Some(w), w)
  {
    EmitStartsRun(o, s, e);
  }

  /** A marked event repeating the previous one strictly later is forwarded
      with the incremented count written under the target. */
  lemma MarkedRepeat(o: WhenRepeatedOptions, s: EngineState, e: LogEvent, name: string)
    requires ZeroTimeoutDefault(o) && !IsBlank(name) && TargetName(e) == name
    requires s.previous.Some? && s.previous.value.message == e.message && s.previous.value.level == e.level
    requires s.previous.value.timestamp < e.timestamp
    ensures var w := WriteCount(e, name, s.repeatedCounts + 1);
      Emit(o, s, e) == Emitted(EngineState(Some(w), s.repeatedCounts + 1), Some(w), w)
  {
    assert PastTimeout(o, s, e);
    EmitPastTimeout(o, s, e);
  }

  /** Under the default comparison an event whose message differs from the
      previous one starts a new run. */
  lemma DifferentMessageStartsRun(o: WhenRepeatedOptions, s: EngineState, e: LogEvent)
    requires forall c, p :: o.compare(c, p) == DefaultCompare(c, p)
    requires s.previous.Some? && s.previous.value.message != e.message
    ensures !Continues(o, s, e)
  {
  }

  /** Timeout zero under the `Default` strategy with no `onRepeat`: three
      matching marked events and a fourth that differs are each forwarded,
      with 0, 1, 2 and 0 written under the marker's target. */
  lemma MarkedRunCounts(o: WhenRepeatedOptions, name: string, a1: LogEvent, a2: LogEvent, a3: LogEvent, b: LogEvent)
    requires ZeroTimeoutDefault(o) && !IsBlank(name)
    requires TargetName(a1) == TargetName(a2) == TargetName(a3) == TargetName(b) == name
    requires a1.message == a2.message == a3.message != b.message
    requires a1.level == a2.level == a3.level
    requires a1.timestamp < a2.timestamp < a3.timestamp
    ensures var e1, e2, e3, e4 := WriteCount(a1, name, 0), WriteCount(a2, name, 1), WriteCount(a3, name, 2), WriteCount(b, name, 0);
      && Emit(o, Initial(), a1) == Emitted(EngineState(Some(e1), 0), Some(e1), e1)
      && Emit(o, EngineState(Some(e1), 0), a2) == Emitted(EngineState(Some(e2), 1), Some(e2), e2)
      && Emit(o, EngineState(Some(e2), 1), a3) == Emitted(EngineState(Some(e3), 2), Some(e3), e3)
      && Emit(o, EngineState(Some(e3), 2), b) == Emitted(EngineState(Some(e4), 0), Some(e4), e4)
  {
    var e1, e2, e3 := WriteCount(a1, name, 0), WriteCount(a2, name, 1), WriteCount(a3, name, 2);
    MarkedStart(o, Initial(), a1, name);
    MarkedRepeat(o, EngineState(Some(e1), 0), a2, name);
    MarkedRepeat(o, EngineState(Some(e2), 1), a3, name);
    DifferentMessageStartsRun(o, EngineState(Some(e3), 2), b);
    MarkedStart(o, EngineState(Some(e3), 2), b, name);
  }

  /** An information event with the given message, enriched with the
      marker named "repeatCount". */
  function Marked(t: int, message: string): LogEvent {
    Enrich(RepeatedMessagesCountEnricher(RepeatCount), Info(t, message))
  }

  lemma MarkedNamesRepeatCount(t: int, message: string)
    ensures TargetName(Marked(t, message)) == RepeatCount
    ensures !IsBlank(RepeatCount)
  {
    var name := RepeatCount;
    assert !IsWhiteSpace(name[0]);
    assert '"' !in name;
    var e := Marked(t, message);
    assert e.properties[MarkerKey] == Str(name);
    QuotesToBackslashesKeepsName(name);
  }

  /** Enrichment named "repeatCount", timeout zero, messages A, A, A, B:
      each is forwarded, reading 0, 1, 2 and 0. */
  lemma MarkerCountsZeroOneTwoZero()
    ensures WithRepeatedMessagesCount(Some(RepeatCount)) == Success(RepeatedMessagesCountEnricher(RepeatCount))
    ensures var o := FromFunctions(None, None, Some(Zero), Some(AlwaysDefault));
      var e1 := WriteCount(Marked(0, "A"), RepeatCount, 0);
      var e2 := WriteCount(Marked(1, "A"), RepeatCount, 1);
      var e3 := WriteCount(Marked(2, "A"), RepeatCount, 2);
      var e4 := WriteCount(Marked(3, "B"), RepeatCount, 0);
      && Emit(o, Initial(), Marked(0, "A")) == Emitted(EngineState(Some(e1), 0), Some(e1), e1)
      && Emit(o, EngineState(Some(e1), 0), Marked(1, "A")) == Emitted(EngineState(Some(e2), 1), Some(e2), e2)
      && Emit(o, EngineState(Some(e2), 1), Marked(2, "A")) == Emitted(EngineState(Some(e3), 2), Some(e3), e3)
      && Emit(o, EngineState(Some(e3), 2), Marked(3, "B")) == Emitted(EngineState(Some(e4), 0), Some(e4), e4)
      && CountIn(Some(e1), RepeatCount) == Some(0)
      && CountIn(Some(e2), RepeatCount) == Some(1)
      && CountIn(Some(e3), RepeatCount) == Some(2)
      && CountIn(Some(e4), RepeatCount) == Some(0)
  {
    MarkerScenarioPremises();
    MarkedRunCounts(FromFunctions(None, None, Some(Zero), Some(AlwaysDefault)), RepeatCount,
      Marked(0, "A"), Marked(1, "A"), Marked(2, "A"), Marked(3, "B"));
  }

  /** The enrichment test's policy: timeout zero and the `Default`
      strategy for every pair, the default comparison, no `onRepeat`. */
  lemma ZeroPolicyIsZeroTimeoutDefault()
    ensures ZeroTimeoutDefault(FromFunctions(None, None, Some(Zero), Some(AlwaysDefault)))
  {
    var o := FromFunctions(None, None, Some(Zero), Some(AlwaysDefault));
    assert o == WhenRepeatedOptions(None, DefaultCompare, Zero, AlwaysDefault);
  }

  /** Each event of the enrichment test targets "repeatCount". */
  lemma MarkedEventsTargetRepeatCount()
    ensures TargetName(Marked(0, "A")) == RepeatCount
    ensures TargetName(Marked(1, "A")) == RepeatCount
    ensures TargetName(Marked(2, "A")) == RepeatCount
    ensures TargetName(Marked(3, "B")) == RepeatCount
  {
    MarkedNamesRepeatCount(0, "A");
    MarkedNamesRepeatCount(1, "A");
    MarkedNamesRepeatCount(2, "A");
    MarkedNamesRepeatCount(3, "B");
  }

  /** The name the enrichment test configures is accepted. */
  lemma RepeatCountIsAccepted()
    ensures WithRepeatedMessagesCount(Some(RepeatCount)) == Success(RepeatedMessagesCountEnricher(RepeatCount))
    ensures !IsBlank(RepeatCount)
  {
    var name := RepeatCount;
    assert !IsWhiteSpace(name[0]);
  }

  /** The enrichment test's events: three repeats of one message at
      increasing times, then a different message. */
  lemma MarkedEventsOrder()
    ensures var a1, a2, a3, b := Marked(0, "A"), Marked(1, "A"), Marked(2, "A"), Marked(3, "B");
      && a1.message == a2.message == a3.message != b.message
      && a1.level == a2.level == a3.level
      && a1.timestamp < a2.timestamp < a3.timestamp
  {
  }

  /** The enrichment test's policy and events meet the premises of
      `MarkedRunCounts`. */
  lemma MarkerScenarioPremises()
    ensures WithRepeatedMessagesCount(Some(RepeatCount)) == Success(RepeatedMessagesCountEnricher(RepeatCount))
    ensures ZeroTimeoutDefault(FromFunctions(None, None, Some(Zero), Some(AlwaysDefault)))
    ensures !IsBlank(RepeatCount)
    ensures var a1, a2, a3, b := Marked(0, "A"), Marked(1, "A"), Marked(2, "A"), Marked(3, "B");
      && TargetName(a1) == TargetName(a2) == TargetName(a3) == TargetName(b) == RepeatCount
      && a1.message == a2.message == a3.message != b.message
      && a1.level == a2.level == a3.level
      && a1.timestamp < a2.timestamp < a3.timestamp
  {
    RepeatCountIsAccepted();
    ZeroPolicyIsZeroTimeoutDefault();
    MarkedEventsTargetRepeatCount();
    MarkedEventsOrder();
  }

  /** A white-space name is refused at setup. */
  lemma WhiteSpaceNameIsRefused()
    ensures WithRepeatedMessagesCount(Some(" ")) == Failure(ArgumentNullException("propertyName"))
    ensures WithRepeatedMessagesCount(None).Failure?
    ensures WithRepeatedMessagesCount(Some("")).Failure?
  {
  }

  /** Each constructor stores what it is given and defaults the rest. */
  lemma ConstructorsInitialiseFields(c: LogEvent, p: Option<LogEvent>)
    ensures var o := FromValues(Some((e: LogEvent, q: Option<LogEvent>) => Some(e)),
                       Some((e: LogEvent, q: Option<LogEvent>) => true), Some(6 * TicksPerSecond), Some(AsRepeated));
      && o.onRepeat.Some? && o.compare(c, p) && o.timeout(c, p) == 6 * TicksPerSecond
      && o.firstStrategy(c, p) == AsRepeated
    ensures var o := FromTimeout(Some((e: LogEvent, q: Option<LogEvent>) => Some(e)),
                       Some((e: LogEvent, q: Option<LogEvent>) => 6 * TicksPerSecond));
      && o.onRepeat.Some? && o.timeout(c, p) == 6 * TicksPerSecond && o.firstStrategy(c, p) == Default
    ensures var o := FromCompareAndTimeout(Some((e: LogEvent, q: Option<LogEvent>) => Some(e)),
                       Some((e: LogEvent, q: Option<LogEvent>) => true),
                       Some((e: LogEvent, q: Option<LogEvent>) => 6 * TicksPerSecond));
      && o.onRepeat.Some? && o.compare(c, p) && o.timeout(c, p) == 6 * TicksPerSecond
      && o.firstStrategy(c, p) == Default
    ensures var o := FromFunctions(Some((e: LogEvent, q: Option<LogEvent>) => Some(e)),
                       Some((e: LogEvent, q: Option<LogEvent>) => true),
                       Some((e: LogEvent, q: Option<LogEvent>) => 6 * TicksPerSecond),
                       Some((e: LogEvent, q: Option<LogEvent>) => AsRepeated));
      && o.onRepeat.Some? && o.compare(c, p) && o.timeout(c, p) == 6 * TicksPerSecond
      && o.firstStrategy(c, p) == AsRepeated
  {
  }

  /** Disposing the sink disposes a disposable wrapped sink once. */
  lemma DisposeDisposesWrappedOnce(options: WhenRepeatedOptions)
    ensures Dispose(NewSink(Downstream([], true, 0), options)).wrapped.disposeCalls == 1
  {
  }

  /** Constructed from an onRepeat callback alone, the timeout is ten
      seconds for any pair of events. */
  lemma DefaultTimeoutIsTenSeconds(c: LogEvent, p: Option<LogEvent>)
    ensures FromOnRepeat(Some((e: LogEvent, q: Option<LogEvent>) => Some(e))).timeout(c, p) == 10 * TicksPerSecond
  {
  }

  /** A configured name with a double quote between two other
      characters, such as `a"b`: the name is accepted, the marker renders as
      `"a\"b"`, and the engine writes the count under `a\b`. */
  lemma QuotedNameTargetsBackslash(x: char, y: char)
    requires x != '"' && y != '"' && !IsWhiteSpace(x)
    ensures WithRepeatedMessagesCount(Some([x, '"', y])) == Success(RepeatedMessagesCountEnricher([x, '"', y]))
    ensures TargetName(Enrich(RepeatedMessagesCountEnricher([x, '"', y]), Info(0, DefaultMessage))) == [x, '\\', y]
  {
    var name := [x, '"', y];
    assert !IsWhiteSpace(name[0]);
    AttachedMarkerNamesTarget(Some(name), Info(0, DefaultMessage));
    var t := QuotesToBackslashes(name);
    assert t[0] == x && t[1] == '\\' && t[2] == y;
  }
}
