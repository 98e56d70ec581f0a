/** Option and Result, used for JavaScript's null/undefined and for Java's thrown exceptions. */
module Wrappers {

  /** A value that may be absent (`null`, `undefined`, an empty `Optional`). */
  datatype Option<+T> = None | Some(value: T) {
    function GetOr(default: T): T {
      match this
      case Some(v) => v
      case None => default
    }
  }

  /** The outcome of an operation that either returns a value or throws. */
  datatype Result<+T, +E> = Ok(value: T) | Err(error: E)
}
