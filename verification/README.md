# WhenRepeated duplicate suppression, modelled in Dafny

This project models the core of Serilog.Extensions.WhenRepeated. That core is a sink wrapper that stops bursts of
repeated log events from reaching the wrapped sink. When a repeat arrives after the quiet period (the timeout), the
wrapper forwards it, possibly transformed. It can also write the number of surfaced repeats into a property of the
event.

The model has these parts:

- `events.dfy` describes a log event. It has a tick timestamp, a level, an opaque rendered message and a property
  map. It also defines the marker property key.
- `options.dfy` models `WhenRepeatedOptions`. This is the policy: `compare`, `timeout`, an optional `onRepeat` and
  `firstStrategy`. The file also has the five constructors and their defaults.
- `event_sink.dfy` models `WhenRepeatedEventSink.Emit` as a pure transition. It takes an engine state (`previous`,
  `repeatedCounts`) and an event. It returns the new state, the record forwarded (if any) and the event with its
  final property map.
- `runs.dfy` runs sequences of `Emit` calls and states the trace-level properties.
- `lifecycle.dfy` puts the engine together with the wrapped sink and the `isDisposed` flag. It models `Dispose()`,
  `Dispose(bool)` and the finaliser. A small class wraps the pure functions for callers that hold a reference.
- `enricher.dfy` models `RepeatedMessagesCountEnricher`.
- `extensions.dfy` models `LoggerExtensions`: the name check of `WithRepeatedMessagesCount`, and `WhenRepeated`.
- `scenarios.dfy` replays the in-memory tests with explicit timestamps.
- `text.dfy` and `wrappers.dfy` hold the .NET string helpers used (`char.IsWhiteSpace`, `IsNullOrWhiteSpace`,
  `Replace("\"", "")`, decimal rendering) and `Option`/`Result`.

The code is modelled as written, including three quirks:

- **Early return.** Under `WhenRepeated`, the first repeat that surfaces returns before `previousLogEvent` is
  updated. The marker target then still holds the provisional (old) count.
- **Self-reference under `AsRepeated`.** The new-run `AsRepeated` branch calls `onRepeat(event, event)`, because
  `previousLogEvent` has already been overwritten.
- **Write after forward.** The past-timeout path writes the count after forwarding. When the forwarded record is the
  event itself, the wrapped sink sees the final count. So the model forwards the event with its final property map.

`compare`, `timeout` and `onRepeat` receive the event after the provisional count write. `firstStrategy` receives
it before that write.

Other behaviour of the code that the model keeps:

- `Emit` has no guard against being called after disposal (WhenRepeatedEventSink.cs:25-76,
  `Lifecycle.EmitIgnoresDisposal`).
- The `WhenRepeated` early return at WhenRepeatedEventSink.cs:43 skips both the count rewrite at :52 and the update
  of the previous event at :56.
- An `onRepeat` that returns null forwards the original event instead of suppressing it (:47, :73).
- The marker's value is read back through `ToString()` (:29). For the string the enricher stores, Serilog renders it
  between double quotes, with each `"` inside escaped as `\"`. Removing the quotes then leaves the configured name
  with a backslash where each of its own `"` was: a name `a"b` makes the engine write under `a\b`.

## Model

| member | source | states |
|---|---|---|
| Events.Render | Serilog.Extensions.WhenRepeated/WhenRepeatedEventSink.cs:29 | `ToString()` of a property value: a string between double quotes with its own double quotes escaped, a count as its decimal digits, any other value as its given text |
| Text.IsWhiteSpace | Serilog.Extensions.WhenRepeated/WhenRepeatedEventSink.cs:31 | `char.IsWhiteSpace`: the space separators (U+0020, U+00A0, U+1680, U+2000 to U+200A, U+202F, U+205F, U+3000), the line and paragraph separators, U+0009 to U+000D and U+0085 |
| Text.IsBlank | Serilog.Extensions.WhenRepeated/WhenRepeatedEventSink.cs:31 | a string is blank when every character is white space, so the empty string is blank |
| Text.IsNullOrWhiteSpace | Serilog.Extensions.WhenRepeated/LoggerExtensions.cs:15 | `string.IsNullOrWhiteSpace`: a null reference or a blank string |
| Text.RemoveQuotes | Serilog.Extensions.WhenRepeated/WhenRepeatedEventSink.cs:29 | the result holds no double quote and keeps every other character with its multiplicity; a single quote character is dropped and any other single character kept |
| Text.RemoveQuotesAppend | Serilog.Extensions.WhenRepeated/WhenRepeatedEventSink.cs:29 | removing quotes from a concatenation concatenates the pieces' results, so the kept characters stay in order |
| Text.EscapeQuotes | Serilog.Extensions.WhenRepeated/WhenRepeatedEventSink.cs:29 | the body of the rendered string literal is never shorter than the string, and equals the string itself when it holds no double quote |
| Text.EscapeQuotesAppend | Serilog.Extensions.WhenRepeated/WhenRepeatedEventSink.cs:29 | escaping a concatenation concatenates the escaped pieces, so escaping works character by character and in order |
| Text.EscapeQuotesOfChar | Serilog.Extensions.WhenRepeated/WhenRepeatedEventSink.cs:29 | a single double quote becomes a backslash followed by the quote, and any other character is kept |
| Text.Quoted | Serilog.Extensions.WhenRepeated/WhenRepeatedEventSink.cs:29 | a string property renders between two double quotes |
| Text.QuotedBody | Serilog.Extensions.WhenRepeated/WhenRepeatedEventSink.cs:29 | what lies between the enclosing quotes of a rendered string is exactly the escaped string |
| Text.QuotesToBackslashes | Serilog.Extensions.WhenRepeated/WhenRepeatedEventSink.cs:29 | the same length as its input, with a backslash at each position that held a double quote and the input's character everywhere else |
| Text.RemoveQuotesOfEscaped | Serilog.Extensions.WhenRepeated/WhenRepeatedEventSink.cs:29 | removing the quotes from an escaped string turns each escaped quote into its backslash |
| Text.RemoveQuotesOfQuoted | Serilog.Extensions.WhenRepeated/WhenRepeatedEventSink.cs:29 | removing the quotes from a rendered string property gives the string with a backslash for each of its double quotes |
| Text.QuotesToBackslashesKeepsName | Serilog.Extensions.WhenRepeated/WhenRepeatedEventSink.cs:29-31 | a non-blank name stays non-blank after the replacement, and a quote-free one is unchanged |
| Text.RemoveQuotesKeepsQuoteFree | Serilog.Extensions.WhenRepeated/WhenRepeatedEventSink.cs:29 | a name without double quotes passes through unchanged |
| Text.Decimal | Serilog.Extensions.WhenRepeated/WhenRepeatedEventSink.cs:33 | a count value renders as a non-empty string of digits without a leading zero |
| Text.DecimalRoundTrip | Serilog.Extensions.WhenRepeated/WhenRepeatedEventSink.cs:33 | reading the rendered digits back gives the count |
| Text.DecimalIsNamed | Serilog.Extensions.WhenRepeated/WhenRepeatedEventSink.cs:28-33 | a count used as marker value names a non-blank target with no quotes |
| Options.FromValues | Serilog.Extensions.WhenRepeated/WhenRepeatedOptions.cs:16-33 | onRepeat is stored as given; a null compare keeps the default; a constant timeout or strategy becomes a function returning it for every pair; a null one keeps the default |
| Options.FromOnRepeat | Serilog.Extensions.WhenRepeated/WhenRepeatedOptions.cs:40-43 | onRepeat as given, with the default compare, timeout and strategy |
| Options.FromTimeout | Serilog.Extensions.WhenRepeated/WhenRepeatedOptions.cs:50-56 | onRepeat as given; a non-null timeout function replaces the default and a null one keeps it |
| Options.FromCompareAndTimeout | Serilog.Extensions.WhenRepeated/WhenRepeatedOptions.cs:64-72 | null compare or timeout keeps the default, non-null replaces it; the strategy stays default |
| Options.FromFunctions | Serilog.Extensions.WhenRepeated/WhenRepeatedOptions.cs:81-91 | each of compare, timeout and strategy is the given function when non-null and the default otherwise |
| Options.DefaultCompare | Serilog.Extensions.WhenRepeated/WhenRepeatedOptions.cs:94 | the default comparison: a previous event exists and has the same rendered message and level (a null previous renders as null, which equals no string) |
| Options.Defaults | Serilog.Extensions.WhenRepeated/WhenRepeatedOptions.cs:93-96 | the property initialisers: no onRepeat, a comparison that holds iff a previous event with equal message and level exists, a 10-second timeout and the Default strategy for every pair |
| Options.DefaultCompareIsEquivalence | Serilog.Extensions.WhenRepeated/WhenRepeatedOptions.cs:94 | the default comparison holds iff message and level agree, is false without a previous event, and is reflexive, symmetric and transitive |
| Options.DefaultsHoldForEveryPair | Serilog.Extensions.WhenRepeated/WhenRepeatedOptions.cs:95-96 | when not supplied, the timeout is 10 seconds (10^8 ticks) and the strategy is Default for every pair of events, whatever the constructor and whatever else is supplied |
| EventSink.TargetName | Serilog.Extensions.WhenRepeated/WhenRepeatedEventSink.cs:28-30 | the target name is empty without a marker and otherwise the marker's rendered text with its double quotes removed; for a string marker that is the string with a backslash for each double quote, and a quote-free non-string text is kept as it is |
| EventSink.Replacement | Serilog.Extensions.WhenRepeated/WhenRepeatedEventSink.cs:47 | the substitute record: none without a callback, otherwise what the callback returns for the current and previous event (none for null) |
| EventSink.Provisional | Serilog.Extensions.WhenRepeated/WhenRepeatedEventSink.cs:28-34 | the event as `compare`, `timeout` and `onRepeat` see it: the old count already written under its target |
| EventSink.Continues | Serilog.Extensions.WhenRepeated/WhenRepeatedEventSink.cs:35 | the event continues the run when there is a previous event and `compare` holds for the provisional event and it |
| EventSink.PastTimeout | Serilog.Extensions.WhenRepeated/WhenRepeatedEventSink.cs:35-37 | the run continues and strictly more time than `timeout` gives has passed since the previous event |
| EventSink.FirstSurfacing | Serilog.Extensions.WhenRepeated/WhenRepeatedEventSink.cs:39-40 | a past-timeout repeat under the WhenRepeated strategy (read from the untouched event) while the count is still 0, so the raised count is 1 |
| EventSink.WriteCount | Serilog.Extensions.WhenRepeated/WhenRepeatedEventSink.cs:31-34 | a blank name leaves the event as it is; otherwise the name reads the count and no other property changes |
| EventSink.Emit | Serilog.Extensions.WhenRepeated/WhenRepeatedEventSink.cs:25-76 | only properties change, only under the target name: no key other than the target is added, removed or given a new value; the previous event stays or becomes this event; the count resets, stays or grows by one; a forwarded record other than the event comes from onRepeat |
| EventSink.WriteCountOverwrites | Serilog.Extensions.WhenRepeated/WhenRepeatedEventSink.cs:52 | a second count write under the same name replaces the first |
| EventSink.EmitStartsRun | Serilog.Extensions.WhenRepeated/WhenRepeatedEventSink.cs:60-75 | a new run resets the count to 0 and makes the event previous; the strategy, read from the untouched event and the pre-call previous, decides: Default forwards the event, AsRepeated forwards onRepeat(event, event) or the event, Ignore and WhenRepeated forward nothing |
| EventSink.EmitWithinTimeout | Serilog.Extensions.WhenRepeated/WhenRepeatedEventSink.cs:35-57 | a repeat inside the timeout forwards nothing, keeps the count and becomes the previous event |
| EventSink.EmitPastTimeout | Serilog.Extensions.WhenRepeated/WhenRepeatedEventSink.cs:37-57 | a repeat past the timeout adds exactly one to the count and forwards onRepeat(event, previous), or else the event with the new count written |
| EventSink.EmitFirstSurfacing | Serilog.Extensions.WhenRepeated/WhenRepeatedEventSink.cs:39-44 | under WhenRepeated the first past-timeout repeat is forwarded unmodified, onRepeat is irrelevant, the count becomes 1 and previous is not updated |
| EventSink.EmitMarkerWrites | Serilog.Extensions.WhenRepeated/WhenRepeatedEventSink.cs:28-64 | after Emit the target reads the new count, or the old count on the early return; a blank target leaves the event untouched |
| EventSink.ForwardedEventReadsCount | Serilog.Extensions.WhenRepeated/WhenRepeatedEventSink.cs:47-52 | without onRepeat, a forwarded marked event is the event itself and its target reads the count in effect after the call |
| EventSink.EmitCount | Serilog.Extensions.WhenRepeated/WhenRepeatedEventSink.cs:35-60 | the count is 0 after a run start, one more after a past-timeout repeat and unchanged inside the timeout |
| EventSink.NoMarkerNoWrites | Serilog.Extensions.WhenRepeated/WhenRepeatedEventSink.cs:28-31 | an event without a marker is handed on and stored unchanged |
| Runs.Run | Serilog.Extensions.WhenRepeated/WhenRepeatedEventSink.cs:25-76 | over any sequence of calls, the wrapped sink receives at most one record per event |
| Runs.RunLastStep | Serilog.Extensions.WhenRepeated/WhenRepeatedEventSink.cs:25-76 | the last call of a run steps the shorter run's state by Emit and appends what it forwards |
| Runs.CountsRepeatsStep | Serilog.Extensions.WhenRepeated/WhenRepeatedEventSink.cs:39 | resetting on a run start and adding one per surfaced repeat keeps the count equal to the surfaced repeats since the run start |
| Runs.RunCountsRepeatsSinceRunStart | Serilog.Extensions.WhenRepeated/WhenRepeatedEventSink.cs:35-60 | after any sequence of calls the count equals the number of past-timeout repeats since the last run start (or initial count plus all of them if no run started) |
| Runs.AtZero | Serilog.Extensions.WhenRepeated/WhenRepeatedEventSink.cs:31-34 | writing 0 under the target changes neither timestamp, level nor message, and leaves an unmarked event as it is |
| Runs.BurstForwardsOnlyFirst | Serilog.Extensions.WhenRepeated.Tests/InMemoryTests.cs:84-100 | under Default, a run start followed by repeats each within the timeout of its predecessor (marked or not) forwards exactly the first event, with 0 under its target, and leaves count 0 with the last event as previous |
| Lifecycle.NewSink | Serilog.Extensions.WhenRepeated/WhenRepeatedEventSink.cs:13-21 | a new sink has no previous event, count 0, is not disposed and keeps the given sink and options |
| Lifecycle.SinkEmit | Serilog.Extensions.WhenRepeated/WhenRepeatedEventSink.cs:25-76 | the wrapped sink's received records are extended by at most one, and the flag and dispose count are untouched |
| Lifecycle.SinkEmitStep | Serilog.Extensions.WhenRepeated/WhenRepeatedEventSink.cs:42-73 | one call steps the engine exactly as Emit does and appends to the wrapped sink exactly the record Emit forwards (nothing when it forwards nothing) |
| Lifecycle.SinkEmitFollows | Serilog.Extensions.WhenRepeated/WhenRepeatedEventSink.cs:25-76 | one more call keeps the sink in step with the engine's trace extended by that call |
| Lifecycle.SinkFollowsRun | Serilog.Extensions.WhenRepeated/WhenRepeatedEventSink.cs:25-76 | after any sequence of calls on any sink, its engine is in the state Run reaches and the wrapped sink has received exactly Run's forwarded records, in order, after what it held; options, flag and dispose count are untouched |
| Lifecycle.NewSinkForwardsRun | Serilog.Extensions.WhenRepeated/WhenRepeatedEventSink.cs:13-76 | a freshly constructed sink hands its wrapped sink exactly what the engine forwards from the initial state |
| Lifecycle.DisposeCore | Serilog.Extensions.WhenRepeated/WhenRepeatedEventSink.cs:84-97 | afterwards the sink is disposed; an already disposed sink is unchanged; the wrapped sink is disposed once iff not yet disposed, disposing, and disposable |
| Lifecycle.DisposeIsIdempotent | Serilog.Extensions.WhenRepeated/WhenRepeatedEventSink.cs:78-97 | a further Dispose() after Dispose() or the finaliser changes nothing |
| Lifecycle.DisposeTimesDisposesOnce | Serilog.Extensions.WhenRepeated/WhenRepeatedEventSink.cs:78-97 | any positive number of Dispose() calls disposes a disposable wrapped sink exactly once |
| Lifecycle.DisposeAfterDisposeIsNoOp | Serilog.Extensions.WhenRepeated/WhenRepeatedEventSink.cs:86-89 | on a disposed sink any number of Dispose() calls do nothing |
| Lifecycle.FinalizeLeavesWrappedAlone | Serilog.Extensions.WhenRepeated/WhenRepeatedEventSink.cs:91-96 | Dispose(false) sets the flag without disposing the wrapped sink |
| Lifecycle.EmitIgnoresDisposal | Serilog.Extensions.WhenRepeated/WhenRepeatedEventSink.cs:25-27 | Emit behaves the same whether or not the sink is disposed |
| Enricher.Enrich | Serilog.Extensions.WhenRepeated/RepeatedMessagesCountEnricher.cs:15-21 | the result has the marker; an existing marker leaves the event unchanged; otherwise the marker holds the configured name; no other key is touched |
| Enricher.EnrichIsIdempotent | Serilog.Extensions.WhenRepeated/RepeatedMessagesCountEnricher.cs:15-21 | enriching twice equals enriching once |
| Enricher.FirstEnricherWins | Serilog.Extensions.WhenRepeated/RepeatedMessagesCountEnricher.cs:17 | a second enricher leaves the first one's marker in place |
| Extensions.WithRepeatedMessagesCount | Serilog.Extensions.WhenRepeated/LoggerExtensions.cs:13-20 | fails with ArgumentNullException("propertyName") iff the name is null, empty or white space; otherwise the enricher carries exactly that name |
| Extensions.WhenRepeated | Serilog.Extensions.WhenRepeated/LoggerExtensions.cs:28-38 | each call wraps its wrapped sink (possibly an aggregate of several) in one fresh engine with the given options: no previous event, count 0, not disposed |
| Extensions.FreshEngineStartsRun | Serilog.Extensions.WhenRepeated/LoggerExtensions.cs:34 | the first event on a freshly wrapped sink starts a run and leaves count 0 |
| Extensions.AttachedMarkerNamesTarget | Serilog.Extensions.WhenRepeated/LoggerExtensions.cs:15-19 | a marker attached through an accepted name always names a non-blank target: the name with a backslash for each double quote, so a quote-free name is exactly the engine's target |
| Scenarios.TimeoutZeroRepeatsEveryRepeat | Serilog.Extensions.WhenRepeated.Tests/InMemoryTests.cs:22-51 | timeout 0, three identical messages: the first is forwarded as is, the next two as transformed events |
| Scenarios.TimeoutOneSecondSuppressesEarlyRepeat | Serilog.Extensions.WhenRepeated.Tests/InMemoryTests.cs:53-81 | timeout 1 s: the immediate repeat is suppressed, the one after more than a second is transformed |
| Scenarios.NullOnRepeatLogsOnlyFirst | Serilog.Extensions.WhenRepeated.Tests/InMemoryTests.cs:83-100 | an onRepeat returning null with three immediate messages forwards only the first |
| Scenarios.WindowSlidesFromLastProcessed | Serilog.Extensions.WhenRepeated/WhenRepeatedEventSink.cs:56 | repeats 0.6 s apart under a 1 s timeout are all suppressed, because the window restarts at each processed repeat |
| Scenarios.WhenRepeatedHidesUnsurfacedRuns | Serilog.Extensions.WhenRepeated.Tests/InMemoryTests.cs:102-133 | under WhenRepeated, runs whose repeats stay within the timeout forward nothing |
| Scenarios.WhenRepeatedSurfacesSecondUnmodified | Serilog.Extensions.WhenRepeated.Tests/InMemoryTests.cs:135-158 | under WhenRepeated a repeat after the timeout is forwarded unmodified, count 1, previous still the first event |
| Scenarios.AsRepeatedTransformsFirst | Serilog.Extensions.WhenRepeated.Tests/InMemoryTests.cs:160-184 | under AsRepeated a lone event is forwarded through onRepeat |
| Scenarios.IgnoreLogsSecond | Serilog.Extensions.WhenRepeated.Tests/InMemoryTests.cs:186-202 | under Ignore with timeout 0 only the second of two messages is forwarded |
| Scenarios.MarkedStart | Serilog.Extensions.WhenRepeated/WhenRepeatedEventSink.cs:60-70 | a marked event that starts a run under Default is forwarded with 0 written under its target |
| Scenarios.MarkedRepeat | Serilog.Extensions.WhenRepeated/WhenRepeatedEventSink.cs:37-56 | a marked strictly later repeat under timeout 0 is forwarded with the incremented count |
| Scenarios.DifferentMessageStartsRun | Serilog.Extensions.WhenRepeated/WhenRepeatedOptions.cs:94 | with the default comparison a different message starts a new run |
| Scenarios.MarkedRunCounts | Serilog.Extensions.WhenRepeated.Tests/InMemoryTests.cs:204-228 | for any marked events A, A, A, B under timeout 0, each is forwarded reading 0, 1, 2, 0 |
| Scenarios.MarkedNamesRepeatCount | Serilog.Extensions.WhenRepeated/LoggerExtensions.cs:19 | an event enriched with "repeatCount" targets "repeatCount" |
| Scenarios.ZeroPolicyIsZeroTimeoutDefault | Serilog.Extensions.WhenRepeated.Tests/InMemoryTests.cs:212-214 | the test's options compare by default, time out at 0 and use Default for every pair, with no onRepeat |
| Scenarios.MarkedEventsTargetRepeatCount | Serilog.Extensions.WhenRepeated.Tests/InMemoryTests.cs:208-226 | each of the test's four enriched events targets "repeatCount" |
| Scenarios.RepeatCountIsAccepted | Serilog.Extensions.WhenRepeated.Tests/InMemoryTests.cs:208 | the name "repeatCount" is not blank and is accepted as the enricher's name |
| Scenarios.MarkedEventsOrder | Serilog.Extensions.WhenRepeated.Tests/InMemoryTests.cs:217-226 | the test's first three events share message and level at increasing times, and the fourth has another message |
| Scenarios.MarkerScenarioPremises | Serilog.Extensions.WhenRepeated.Tests/InMemoryTests.cs:207-226 | the test's setup is accepted and meets the premises of MarkedRunCounts |
| Scenarios.MarkerCountsZeroOneTwoZero | Serilog.Extensions.WhenRepeated.Tests/InMemoryTests.cs:204-228 | the enrichment test forwards its four events reading 0, 1, 2 and 0 |
| Scenarios.WhiteSpaceNameIsRefused | Serilog.Extensions.WhenRepeated.Tests/InMemoryTests.cs:230-246 | " ", "" and null names are refused with ArgumentNullException |
| Scenarios.ConstructorsInitialiseFields | Serilog.Extensions.WhenRepeated.Tests/InMemoryTests.cs:248-287 | each constructor the test calls yields the given onRepeat, compare, six-second timeout and strategy, defaulting the rest |
| Scenarios.QuotedNameTargetsBackslash | Serilog.Extensions.WhenRepeated/WhenRepeatedEventSink.cs:28-30 | a name such as a"b is accepted, and the count is then written under a\b |
| Scenarios.DefaultTimeoutIsTenSeconds | Serilog.Extensions.WhenRepeated.Tests/InMemoryTests.cs:299-304 | built from onRepeat alone, the options time out after 10 seconds for any pair of events |
| Scenarios.DisposeDisposesWrappedOnce | Serilog.Extensions.WhenRepeated.Tests/InMemoryTests.cs:289-297 | disposing a fresh sink over a disposable wrapped sink disposes it once |

`Lifecycle.Dispose`, `Lifecycle.Finalize` and the `WhenRepeatedEventSink` class have no separate rows. The first two
apply `DisposeCore` with `true` and with `false`, and the class methods delegate to the pure functions.

## Left out

- Serilog's `LogEvent`, message-template parsing and `RenderMessage` are not modelled. The rendered message is an
  opaque string, so a message that renders the count property does not change as the count changes.
- Serilog's value rendering is modelled for the two kinds the engine meets: a string property, quoted with `"`
  escaped as `\"`, and the engine's own `BigInteger` count, as decimal digits. Any other marker value is represented
  by its `ToString()` text (`Other`). Format strings and culture settings are not modelled.
- The callbacks `onRepeat`, `compare`, `timeout` and `firstStrategy` are taken to be total and pure. A delegate that
  throws is not modelled. If `onRepeat` throws at WhenRepeatedEventSink.cs:47, the count has already been raised at
  :39, but the marker rewrite at :52 and the previous-event update at :56 are skipped. A delegate that keeps state and
  answers differently for the same pair on different calls is not modelled either.
- `LoggerSinkConfiguration.Wrap` and minimum-level filtering are calls into the logging library. Only the per-sink
  construction of a fresh engine is modelled.
- The `Dictionary` cast at WhenRepeatedEventSink.cs:33 is not modelled; it is taken to succeed.
- Downstream sinks (file, async, in-memory) are not modelled, nor are their exceptions. The wrapped sink is a log of
  received records, a disposable flag and a dispose count.
- Reference identity of events is not modelled, because events are values. If `onRepeat` returns the very object it
  was given, the C# sink would see the later count write too; the model forwards the callback's value as returned.
- A sink that renders at `Emit` time, rather than holding the reference, would see the provisional count. The model
  gives the final property map.
- Garbage collection and finaliser scheduling are not modelled (`~WhenRepeatedEventSink`, `GC.SuppressFinalize`).
  Only the flag logic of `Dispose(bool)` is.
- Concurrency is not modelled. `Emit` is unsynchronised, so calls are taken to be sequential.
- C# constructor-overload resolution is not modelled. Each of the five constructors is a separately named function.
- The file-based tests and their retry helper are not modelled, since they are I/O. Wall-clock sleeps in the tests
  become explicit tick timestamps.
- `TimeSpan` and `DateTimeOffset` arithmetic is unbounded integer arithmetic on ticks. Tick differences of valid
  `DateTimeOffset` values fit in 64 bits, so no overflow occurs in the source.
