/** WhenRepeatedOptions.cs: the suppression policy, four functions of the
    current event and the previous one, and the five constructors that fill
    them in. The fields are only set by a constructor, so an options value
    never changes afterwards. */
module Options {
  import opened Wrappers
  import opened Events

  /** How the first event of a run is handled. */
  datatype OnFirstStrategy = Default | AsRepeated | Ignore | WhenRepeated

  /** `Func<LogEvent, LogEvent?, LogEvent?>`: a substitute for a repeated event. */
  type OnRepeatFn = (LogEvent, Option<LogEvent>) -> Option<LogEvent>
  /** `Func<LogEvent, LogEvent?, bool>`: does the current event repeat the previous one? */
  type CompareFn = (LogEvent, Option<LogEvent>) -> bool
  /** `Func<LogEvent, LogEvent?, TimeSpan>`, the span in ticks (it may be negative). */
  type TimeoutFn = (LogEvent, Option<LogEvent>) -> int
  /** `Func<LogEvent, LogEvent?, OnFirstStrategy>`. */
  type StrategyFn = (LogEvent, Option<LogEvent>) -> OnFirstStrategy

  datatype WhenRepeatedOptions = WhenRepeatedOptions(
    onRepeat: Option<OnRepeatFn>,
    compare: CompareFn,
    timeout: TimeoutFn,
    firstStrategy: StrategyFn)

  /** Ten seconds, in ticks (Constants.cs). */
  const DefaultTimeout: int := 10 * TicksPerSecond

  /** The default comparison: same rendered message and same level. A
      missing previous event renders as null, which equals no string. */
  predicate DefaultCompare(current: LogEvent, previous: Option<LogEvent>) {
    && previous.Some?
    && current.message == previous.value.message
    && current.level == previous.value.level
  }

  function DefaultTimeoutOf(current: LogEvent, previous: Option<LogEvent>): int {
    DefaultTimeout
  }

  function DefaultFirstStrategy(current: LogEvent, previous: Option<LogEvent>): OnFirstStrategy {
    Default
  }

  /** The property initialisers: what every constructor starts from. */
  function Defaults(): (r: WhenRepeatedOptions)
    ensures r.onRepeat.None?
    ensures forall c, p :: r.compare(c, p) <==>
              p.Some? && c.message == p.value.message && c.level == p.value.level
    ensures forall c, p :: r.timeout(c, p) == 10 * TicksPerSecond
    ensures forall c, p :: r.firstStrategy(c, p) == Default
  {
    WhenRepeatedOptions(None, DefaultCompare, DefaultTimeoutOf, DefaultFirstStrategy)
  }

  /** The constructor taking a constant timeout and a constant strategy:
      a given value becomes a function that ignores its arguments. */
  function FromValues(
    onRepeat: Option<OnRepeatFn>,
    compare: Option<CompareFn>,
    timeout: Option<int>,
    firstStrategy: Option<OnFirstStrategy>): (r: WhenRepeatedOptions)
    ensures r.onRepeat == onRepeat
    ensures compare.Some? ==> r.compare == compare.value
    ensures compare.None? ==> r.compare == DefaultCompare
    ensures timeout.Some? ==> forall c, p :: r.timeout(c, p) == timeout.value
    ensures timeout.None? ==> r.timeout == DefaultTimeoutOf
    ensures firstStrategy.Some? ==> forall c, p :: r.firstStrategy(c, p) == firstStrategy.value
    ensures firstStrategy.None? ==> r.firstStrategy == DefaultFirstStrategy
  {
    var d := Defaults();
    WhenRepeatedOptions(
      onRepeat,
      compare.Coalesce(d.compare),
      if timeout.Some? then (c: LogEvent, p: Option<LogEvent>) => timeout.value else d.timeout,
      if firstStrategy.Some? then (c: LogEvent, p: Option<LogEvent>) => firstStrategy.value else d.firstStrategy)
  }

  /** The constructor taking only `onRepeat`. */
  function FromOnRepeat(onRepeat: Option<OnRepeatFn>): (r: WhenRepeatedOptions)
    ensures r.onRepeat == onRepeat
    ensures r.compare == DefaultCompare
    ensures r.timeout == DefaultTimeoutOf
    ensures r.firstStrategy == DefaultFirstStrategy
  {
    Defaults().(onRepeat := onRepeat)
  }

  /** The constructor taking `onRepeat` and a timeout function. */
  function FromTimeout(onRepeat: Option<OnRepeatFn>, timeout: Option<TimeoutFn>): (r: WhenRepeatedOptions)
    ensures r.onRepeat == onRepeat
    ensures r.compare == DefaultCompare
    ensures timeout.Some? ==> r.timeout == timeout.value
    ensures timeout.None? ==> r.timeout == DefaultTimeoutOf
    ensures r.firstStrategy == DefaultFirstStrategy
  {
    var d := Defaults();
    d.(onRepeat := onRepeat, timeout := timeout.Coalesce(d.timeout))
  }

  /** The constructor taking `onRepeat`, a comparison and a timeout function. */
  function FromCompareAndTimeout(
    onRepeat: Option<OnRepeatFn>,
    compare: Option<CompareFn>,
    timeout: Option<TimeoutFn>): (r: WhenRepeatedOptions)
    ensures r.onRepeat == onRepeat
    ensures compare.Some? ==> r.compare == compare.value
    ensures compare.None? ==> r.compare == DefaultCompare
    ensures timeout.Some? ==> r.timeout == timeout.value
    ensures timeout.None? ==> r.timeout == DefaultTimeoutOf
    ensures r.firstStrategy == DefaultFirstStrategy
  {
    var d := Defaults();
    d.(onRepeat := onRepeat, compare := compare.Coalesce(d.compare), timeout := timeout.Coalesce(d.timeout))
  }

  /** The constructor taking all four as functions. */
  function FromFunctions(
    onRepeat: Option<OnRepeatFn>,
    compare: Option<CompareFn>,
    timeout: Option<TimeoutFn>,
    firstStrategy: Option<StrategyFn>): (r: WhenRepeatedOptions)
    ensures r.onRepeat == onRepeat
    ensures compare.Some? ==> r.compare == compare.value
    ensures compare.None? ==> r.compare == DefaultCompare
    ensures timeout.Some? ==> r.timeout == timeout.value
    ensures timeout.None? ==> r.timeout == DefaultTimeoutOf
    ensures firstStrategy.Some? ==> r.firstStrategy == firstStrategy.value
    ensures firstStrategy.None? ==> r.firstStrategy == DefaultFirstStrategy
  {
    var d := Defaults();
    WhenRepeatedOptions(
      onRepeat,
      compare.Coalesce(d.compare),
      timeout.Coalesce(d.timeout),
      firstStrategy.Coalesce(d.firstStrategy))
  }

  /** Two events repeat each other under the default comparison exactly
      when message and level agree; against no previous event, never. The
      relation is an equivalence on events. */
  lemma DefaultCompareIsEquivalence(a: LogEvent, b: LogEvent, c: LogEvent)
    ensures DefaultCompare(a, Some(b)) <==> a.message == b.message && a.level == b.level
    ensures !DefaultCompare(a, None)
    ensures DefaultCompare(a, Some(a))
    ensures DefaultCompare(a, Some(b)) ==> DefaultCompare(b, Some(a))
    ensures DefaultCompare(a, Some(b)) && DefaultCompare(b, Some(c)) ==> DefaultCompare(a, Some(c))
  {
  }

  /** Whatever the constructor, a timeout that is not supplied is ten
      seconds and a strategy that is not supplied is `Default`, for every
      pair of events and whatever else is supplied. */
  lemma DefaultsHoldForEveryPair(
    onRepeat: Option<OnRepeatFn>, compare: Option<CompareFn>, timeout: Option<TimeoutFn>,
    c: LogEvent, p: Option<LogEvent>)
    ensures FromOnRepeat(onRepeat).timeout(c, p) == 100_000_000
    ensures FromOnRepeat(onRepeat).firstStrategy(c, p) == Default
    ensures FromValues(onRepeat, compare, None, None).timeout(c, p) == 100_000_000
    ensures FromValues(onRepeat, compare, None, None).firstStrategy(c, p) == Default
    ensures FromTimeout(onRepeat, None).timeout(c, p) == 100_000_000
    ensures FromTimeout(onRepeat, timeout).firstStrategy(c, p) == Default
    ensures FromCompareAndTimeout(onRepeat, compare, None).timeout(c, p) == 100_000_000
    ensures FromCompareAndTimeout(onRepeat, compare, timeout).firstStrategy(c, p) == Default
    ensures FromFunctions(onRepeat, compare, None, None).timeout(c, p) == 100_000_000
    ensures FromFunctions(onRepeat, compare, timeout, None).firstStrategy(c, p) == Default
  {
  }
}
