/** Optional values and the outcome of a service call that may throw. */
module Wrappers {

  /** A nullable value: `None` stands for Java's `null` or an empty `Optional`. */
  datatype Option<+T> = None | Some(value: T) {
    function GetOr(default: T): T {
      match this
      case Some(v) => v
      case None => default
    }
  }

  /** What a service method returns, or the exception it throws. */
  datatype Result<+T, +E> = Ok(value: T) | Err(error: E)

  /** The outcome of a `void` service method. */
  datatype Outcome<+E> = Pass | Fail(error: E)
}
