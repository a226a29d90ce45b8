/** RepeatedMessagesCountEnricher.cs: attaches the marker property, whose
    value names the property the engine writes the repeat count into. */
module Enricher {
  import opened Events

  datatype RepeatedMessagesCountEnricher = RepeatedMessagesCountEnricher(propertyName: string)

  /** Adds the marker, valued with the configured name, unless the event
      already has one. No other property is touched. */
  function Enrich(enricher: RepeatedMessagesCountEnricher, e: LogEvent): (r: LogEvent)
    ensures r.timestamp == e.timestamp && r.level == e.level && r.message == e.message
    ensures MarkerKey in r.properties
    ensures MarkerKey in e.properties ==> r == e
    ensures MarkerKey !in e.properties ==> r.properties[MarkerKey] == Str(enricher.propertyName)
    ensures forall k :: k != MarkerKey ==> (k in r.properties <==> k in e.properties)
    ensures forall k :: k != MarkerKey && k in e.properties ==> r.properties[k] == e.properties[k]
  {
    if MarkerKey in e.properties then e
    else e.(properties := e.properties[MarkerKey := Str(enricher.propertyName)])
  }

  /** Enriching twice is enriching once. */
  lemma EnrichIsIdempotent(enricher: RepeatedMessagesCountEnricher, e: LogEvent)
    ensures Enrich(enricher, Enrich(enricher, e)) == Enrich(enricher, e)
  {
  }

  /** With two enrichers in a row the first one's name stays. */
  lemma FirstEnricherWins(first: RepeatedMessagesCountEnricher, second: RepeatedMessagesCountEnricher, e: LogEvent)
    ensures Enrich(second, Enrich(first, e)) == Enrich(first, e)
  {
  }
}
