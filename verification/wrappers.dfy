/** Option and Result values used for Python's `None` and for raised exceptions. */
module Wrappers {

  datatype Option<+T> = None | Some(value: T) {
    function GetOr(default: T): T {
      match this
      case Some(v) => v
      case None => default
    }
  }

  /** `Err` carries the Python exception class that the source raises. */
  datatype Result<+T> = Ok(value: T) | Err(error: Error)

  datatype Error =
    | ValueError
    | KeyError
    | TypeError
    | IndexError
}
