/** Sequences of `Emit` calls on one engine, delivered one after another
    (the engine has no locking, so callers serialise). */
module Runs {
  import opened Wrappers
  import opened Events
  import opened Options
  import opened EventSink

  /** What one call did to the run. */
  datatype Outcome = StartsRun | Suppressed | Surfaced

  function Classify(options: WhenRepeatedOptions, s: EngineState, e: LogEvent): Outcome {
    if !Continues(options, s, e) then StartsRun
    else if PastTimeout(options, s, e) then Surfaced
    else Suppressed
  }

  /** The state after a sequence of calls, every record the wrapped sink
      received, what each call was, and each event as it stood afterwards. */
  datatype Trace = Trace(
    state: EngineState,
    forwarded: seq<LogEvent>,
    outcomes: seq<Outcome>,
    processed: seq<LogEvent>)

  function OptionToSeq(o: Option<LogEvent>): (r: seq<LogEvent>)
    ensures |r| <= 1
  {
    if o.Some? then [o.value] else []
  }

  /** The calls `Emit(e0)`, `Emit(e1)`, ... in order. Each call forwards at
      most one record, so the wrapped sink never receives more records than
      there were events. */
  function Run(options: WhenRepeatedOptions, s: EngineState, events: seq<LogEvent>): (t: Trace)
    ensures |t.outcomes| == |events| && |t.processed| == |events|
    ensures |t.forwarded| <= |events|
    decreases |events|
  {
    if events == [] then Trace(s, [], [], [])
    else
      var before := Run(options, s, events[..|events| - 1]);
      var e := events[|events| - 1];
      var r := Emit(options, before.state, e);
      Trace(
        r.state,
        before.forwarded + OptionToSeq(r.forwarded),
        before.outcomes + [Classify(options, before.state, e)],
        before.processed + [r.event])
  }

  /** The last call of a non-empty run: the state and the forwarded records
      of the shorter run, stepped by `Emit` on the last event. */
  lemma RunLastStep(options: WhenRepeatedOptions, s: EngineState, events: seq<LogEvent>)
    requires events != []
    ensures var before, r := Run(options, s, events[..|events| - 1]), Run(options, s, events);
      var step := Emit(options, before.state, events[|events| - 1]);
      && r.state == step.state
      && r.forwarded == before.forwarded + OptionToSeq(step.forwarded)
  {
  }

  /** How often `x` occurs in `os`. */
  function Occurrences(os: seq<Outcome>, x: Outcome): nat {
    if os == [] then 0
    else Occurrences(os[..|os| - 1], x) + (if os[|os| - 1] == x then 1 else 0)
  }

  /** `k` is the position of the most recent run start. */
  ghost predicate LastRunStart(os: seq<Outcome>, k: int) {
    0 <= k < |os| && os[k] == StartsRun && StartsRun !in os[k + 1..]
  }

  /** The count-tracking invariant of `RunCountsRepeatsSinceRunStart`. */
  ghost predicate CountsRepeats(os: seq<Outcome>, initial: nat, count: nat) {
    && (forall k :: LastRunStart(os, k) ==> count == Occurrences(os[k + 1..], Surfaced))
    && (StartsRun !in os ==> count == initial + Occurrences(os, Surfaced))
  }

  /** One more call keeps the invariant when the count moves as `Emit`
      moves it: reset on a run start, one up on a surfaced repeat. */
  lemma CountsRepeatsStep(os: seq<Outcome>, y: Outcome, initial: nat, before: nat, after: nat)
    requires CountsRepeats(os, initial, before)
    requires y == StartsRun ==> after == 0
    requires y == Surfaced ==> after == before + 1
    requires y == Suppressed ==> after == before
    ensures CountsRepeats(os + [y], initial, after)
  {
    var os' := os + [y];
    assert os'[..|os'| - 1] == os;
    forall k | LastRunStart(os', k)
      ensures after == Occurrences(os'[k + 1..], Surfaced)
    {
      if y != StartsRun {
        assert k < |os'| - 1;
        var tail := os'[k + 1..];
        assert tail[..|tail| - 1] == os[k + 1..];
        assert StartsRun !in os[k + 1..] by {
          forall j | k + 1 <= j < |os| ensures os[j] != StartsRun {
            assert os[j] == tail[j - (k + 1)];
          }
        }
        assert LastRunStart(os, k);
      }
    }
    if StartsRun !in os' {
      assert StartsRun !in os by {
        forall j | 0 <= j < |os| ensures os[j] != StartsRun {
          assert os[j] == os'[j];
        }
      }
    }
  }

  /** The count always equals the number of past-timeout repeats since the
      current run began (or, if no run began during the calls, the initial
      count plus all of them). */
  lemma {:induction false} RunCountsRepeatsSinceRunStart(options: WhenRepeatedOptions, s: EngineState, events: seq<LogEvent>)
    ensures var t := Run(options, s, events);
      CountsRepeats(t.outcomes, s.repeatedCounts, t.state.repeatedCounts)
    decreases |events|
  {
    if events != [] {
      var init := events[..|events| - 1];
      var before := Run(options, s, init);
      var e := events[|events| - 1];
      RunCountsRepeatsSinceRunStart(options, s, init);
      EmitCount(options, before.state, e);
      CountsRepeatsStep(before.outcomes, Classify(options, before.state, e), s.repeatedCounts,
        before.state.repeatedCounts, Emit(options, before.state, e).state.repeatedCounts);
    }
  }

  /** An event with 0 written under its target: how the first event of a
      run leaves `Emit`, and so does every repeat inside the timeout while
      the count is still 0. An event without a marker is left as it is. */
  function AtZero(e: LogEvent): (r: LogEvent)
    ensures r.timestamp == e.timestamp && r.level == e.level && r.message == e.message
    ensures MarkerKey !in e.properties ==> r == e
  {
    WriteCount(e, TargetName(e), 0)
  }

  /** A burst: a first event that starts a run under the `Default`
      strategy, followed by events that each repeat their predecessor inside
      its timeout, as `compare` and `timeout` see them (0 written under the
      target). Only the first is forwarded, reading 0; the rest are
      suppressed, and the count stays 0. */
  lemma {:induction false} BurstForwardsOnlyFirst(options: WhenRepeatedOptions, s: EngineState, events: seq<LogEvent>)
    requires |events| >= 1
    requires !Continues(options, s, events[0])
    requires options.firstStrategy(events[0], s.previous) == Default
    requires forall i :: 1 <= i < |events| ==>
               && options.compare(AtZero(events[i]), Some(AtZero(events[i - 1])))
               && events[i].timestamp - events[i - 1].timestamp <= options.timeout(AtZero(events[i]), Some(AtZero(events[i - 1])))
    ensures Run(options, s, events).forwarded == [AtZero(events[0])]
    ensures Run(options, s, events).state == EngineState(Some(AtZero(events[|events| - 1])), 0)
    decreases |events|
  {
    var init := events[..|events| - 1];
    var e := events[|events| - 1];
    if |events| == 1 {
      assert init == [];
      EmitStartsRun(options, s, e);
    } else {
      BurstForwardsOnlyFirst(options, s, init);
      var before := Run(options, s, init);
      assert e == events[|events| - 1] && init[|init| - 1] == events[|events| - 2];
      assert Provisional(before.state, e) == AtZero(e);
      EmitWithinTimeout(options, before.state, e);
    }
  }
}
