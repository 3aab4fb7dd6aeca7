/** Missing values and failing operations. */
module Wrappers {

  /** A value that may be missing (pandas NaN / NaT). */
  datatype Option<+T> = None | Some(value: T) {
    function GetOr(default: T): T {
      match this
      case Some(v) => v
      case None => default
    }
  }

  /** The outcome of an operation that pandas lets raise. */
  datatype Result<+T, +E> = Ok(value: T) | Err(error: E)
}
