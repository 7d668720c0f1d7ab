/** Option and Result, the two failure-carrying datatypes the rest of the model uses. */
module Wrappers {

  /** An argument that may be omitted (Python's `None` default). */
  datatype Option<+T> = None | Some(value: T) {

    /** The carried value, or `default` when the argument was omitted. */
    function GetOr(default: T): T {
      match this
      case Some(v) => v
      case None => default
    }
  }

  /** The outcome of an operation that either returns a value or raises an error. */
  datatype Result<+R, +E> = Success(value: R) | Failure(error: E)
}
