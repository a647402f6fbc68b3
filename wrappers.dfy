/** Option and Result datatypes used for Python's `None` and for raised exceptions. */
module Wrappers {

  /** A value that may be absent (`Optional[...]` / `None`). */
  datatype Option<+T> = None | Some(value: T) {
    function GetOr(default: T): T {
      match this
      case Some(v) => v
      case None => default
    }
  }

  /** The outcome of a call that may raise: either a value or the exception raised. */
  datatype Result<+T, +E> = Ok(value: T) | Err(error: E)
}
