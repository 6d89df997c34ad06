/** Option and Result, the two failure-carrying datatypes the model uses. */
module Wrappers {

  /** A value that may be absent (`undefined` in the source). */
  datatype Option<+T> = None | Some(value: T) {
    /** The held value, or `default` when absent (`x || default` on an optional object). */
    function GetOr(default: T): T {
      match this
      case Some(v) => v
      case None => default
    }
  }

  /** The settled outcome of a promise: a value, or a thrown error with its message. */
  datatype Result<+T, +E> = Success(value: T) | Failure(error: E)
}
