/** LoggerExtensions.cs: the two configuration entry points. */
module Extensions {
  import opened Wrappers
  import opened Text
  import opened Events
  import opened Options
  import opened EventSink
  import opened Enricher
  import opened Lifecycle

  /** The exception thrown at setup. */
  datatype SetupError = ArgumentNullException(paramName: string)

  /** `Enrich.WithRepeatedMessagesCount(propertyName)`: a null, empty or
      white-space name is refused before any enricher exists; any other
      name yields an enricher carrying exactly that name. */
  function WithRepeatedMessagesCount(propertyName: Option<string>): (r: Result<RepeatedMessagesCountEnricher, SetupError>)
    ensures r.Failure? <==> IsNullOrWhiteSpace(propertyName)
    ensures r.Failure? ==> r.error == ArgumentNullException("propertyName")
    ensures r.Success? ==> propertyName.Some? && r.value.propertyName == propertyName.value
  {
    if IsNullOrWhiteSpace(propertyName) then Failure(ArgumentNullException("propertyName"))
    else Success(RepeatedMessagesCountEnricher(propertyName.value))
  }

  /** `WriteTo.WhenRepeated(...)`: each call wraps its wrapped sink (an
      aggregate when several sinks are configured) in one engine, freshly
      constructed with the given options. Minimum-level filtering is done
      by the logging library before `Emit` and is not modelled. */
  function WhenRepeated(wrapped: Downstream, options: WhenRepeatedOptions): (r: Sink)
    ensures r.engine.previous.None? && r.engine.repeatedCounts == 0 && !r.isDisposed
    ensures r.options == options && r.wrapped == wrapped
  {
    NewSink(wrapped, options)
  }

  /** The first event a freshly wrapped sink sees always starts a run. */
  lemma FreshEngineStartsRun(wrapped: Downstream, options: WhenRepeatedOptions, e: LogEvent)
    ensures var sink := WhenRepeated(wrapped, options);
      && !sink.isDisposed
      && !Continues(options, sink.engine, e)
      && Emit(options, sink.engine, e).state.repeatedCounts == 0
  {
  }

  /** Every marker attached through this configuration names a non-blank
      target, so the engine always writes the count: the accepted name
      itself, with a backslash for each double quote in it. */
  lemma AttachedMarkerNamesTarget(propertyName: Option<string>, e: LogEvent)
    requires WithRepeatedMessagesCount(propertyName).Success?
    requires MarkerKey !in e.properties
    ensures var enriched := Enrich(WithRepeatedMessagesCount(propertyName).value, e);
      && TargetName(enriched) == QuotesToBackslashes(propertyName.value)
      && !IsBlank(TargetName(enriched))
      && ('"' !in propertyName.value ==> TargetName(enriched) == propertyName.value)
  {
    QuotesToBackslashesKeepsName(propertyName.value);
  }
}
