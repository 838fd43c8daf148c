/** Option and Result, used wherever the C++ code returns "nothing" or throws. */
module Wrappers {

  datatype Option<+T> = None | Some(value: T) {
    function GetOr(default: T): T {
      match this
      case Some(v) => v
      case None => default
    }
  }

  /** A call that either returns a value or raises the error the C++ code throws or asserts on. */
  datatype Result<+T, +E> = Ok(value: T) | Err(error: E)
}
