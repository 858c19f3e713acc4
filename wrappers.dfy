/** Option and Result, the two failure-carrying datatypes the model uses. */
module Wrappers {

  datatype Option<+T> = None | Some(value: T) {
    function GetOr(default: T): T {
      match this
      case Some(v) => v
      case None => default
    }
  }

  /** A thrown error (or a Rust `Err`) is a Failure carrying the error. */
  datatype Result<+R, +E> = Success(value: R) | Failure(error: E)
}
