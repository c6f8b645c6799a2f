/** Result types shared by the other modules. */
module Wrappers {

  datatype Option<+T> = None | Some(value: T) {
    function GetOr(default: T): T {
      match this
      case Some(v) => v
      case None => default
    }
  }

  /** The outcome of an operation that either returns a value or raises. */
  datatype Result<+R, +E> = Ok(value: R) | Err(error: E)

  /** The outcome of an operation that returns nothing or raises. */
  datatype Outcome<+E> = Pass | Fail(error: E)
}
