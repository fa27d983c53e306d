/** Optional values and the outcome of a call to an external service. */
module Outcomes {

  /** A value that may be absent (JavaScript `undefined` where the source reads a missing slot). */
  datatype Option<+T> = None | Some(value: T) {
    function GetOr(default: T): T {
      match this
      case Some(v) => v
      case None => default
    }
  }

  /** What an awaited external call produced: a value, or the message of the error it threw. */
  datatype Result<+T, +E> = Ok(value: T) | Err(error: E)
}
