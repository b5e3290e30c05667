/** Option and Result, the two failure-carrying wrappers the model uses. */
module Wrappers {

  /** A value that may be absent: a dictionary key left out, or a `None` result. */
  datatype Option<+T> = None | Some(value: T) {
    function GetOr(default: T): T {
      match this
      case Some(v) => v
      case None => default
    }
  }

  /** Either a value or the error that Python would raise instead. */
  datatype Result<+R, +E> = Ok(value: R) | Err(error: E)
}
