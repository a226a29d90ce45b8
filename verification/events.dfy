/** The parts of a Serilog log event the engine reads or writes. Message
    template parsing and rendering are outside the model: the rendered
    message is an opaque string. */
module Events {
  import opened Text

  /** Severity, declared from least to most severe. */
  datatype Level = Verbose | Debug | Information | Warning | Error | Fatal

  /** A property value. `Str` is a `ScalarValue` holding a string, as the
      enricher creates it; `Other` stands for any other value by its
      `ToString()` text; `Count` is the `ScalarValue(BigInteger)` the engine
      writes. */
  datatype Value = Str(s: string) | Other(text: string) | Count(n: nat)

  /** A log event. `timestamp` is in ticks of 100 ns, so subtracting two
      timestamps gives a `TimeSpan` in ticks. */
  datatype LogEvent = LogEvent(
    timestamp: int,
    level: Level,
    message: string,
    properties: map<string, Value>)

  /** Ticks in one second (`TimeSpan.TicksPerSecond`). */
  const TicksPerSecond: int := 10_000_000

  /** The property whose value names where the repeat count is written
      (Constants.cs). */
  const MarkerKey: string := "__WhenRepeated__RepeatedMessagesCountPropertyName__"

  /** `LogEventPropertyValue.ToString()`. Serilog renders a string scalar
      between double quotes, with its own double quotes escaped. */
  function Render(v: Value): string {
    match v
    case Str(s) => Quoted(s)
    case Other(text) => text
    case Count(n) => Decimal(n)
  }
}
