/** Failure-carrying values used in place of thrown errors and `undefined`. */
module Wrappers {

  /** An optional value: `None` stands for an omitted (undefined) argument or property. */
  datatype Option<+T> = None | Some(value: T) {
    /** The value, or `default` when absent: the `??` operator. */
    function GetOr(default: T): T {
      match this
      case Some(v) => v
      case None => default
    }
  }

  /** The outcome of an operation that either returns a value or throws an error. */
  datatype Result<+R, +E> = Success(value: R) | Failure(error: E)

  /** The outcome of a check that either passes silently or throws an error. */
  datatype Outcome<+E> = Pass | Fail(error: E)
}
