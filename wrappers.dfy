/** Optional values and results with an error message, used throughout the model. */
module Wrappers {

  /** A value that may be absent (`undefined` in the source). */
  datatype Option<+T> = None | Some(value: T) {
    function GetOr(default: T): T {
      match this
      case Some(v) => v
      case None => default
    }
  }

  /** The outcome of an operation that can throw: a value, or the thrown message. */
  datatype Result<+T> = Ok(value: T) | Err(error: string)

  /**
   * How a promise ends up: resolved with a value, rejected with a reason, or
   * still pending once the process it waits on has produced all its output.
   */
  datatype Promise<+T> = Resolved(value: T) | Rejected(reason: string) | Pending
}
