/** Optional values and results with an error, used across the model. */
module Wrappers {

  /** A value that may be absent: a missing or non-numeric table cell, or a column not yet added. */
  datatype Option<+T> = None | Some(value: T) {

    /** The wrapped value, or `default` when absent. */
    function GetOr(default: T): T
    {
      match this
      case Some(v) => v
      case None => default
    }
  }

  /** The outcome of an operation that the source may abort with an exception. */
  datatype Result<+R, +E> = Ok(value: R) | Err(error: E)
}
