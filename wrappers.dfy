/** Option and Result, the two failure-carrying types the rest of the model uses. */
module Wrappers {

  /** A value that may be missing: `null` / `undefined` in the source. */
  datatype Option<+T> = None | Some(value: T) {
    /** The `??` operator: the value, or `default` when missing. */
    function GetOr(default: T): T {
      match this
      case Some(v) => v
      case None => default
    }
  }

  /** The outcome of an operation that either returns a value or fails (throws). */
  datatype Result<+T, +E> = Ok(value: T) | Err(error: E)
}
