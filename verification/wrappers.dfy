/** Stand-ins for two C# idioms: a reference that may be null, and a call
    that may throw instead of returning. */
module Wrappers {

  /** A possibly null reference: `None` is `null`. */
  datatype Option<+T> = None | Some(value: T) {

    /** C#'s null-coalescing `this ?? fallback`. */
    function Coalesce(fallback: T): T {
      if Some? then value else fallback
    }
  }

  /** The value a call returns, or the exception it throws. */
  datatype Result<+R, +E> = Success(value: R) | Failure(error: E)
}
