/** Option and Result, the two failure-compatible values the rest of the model uses. */
module Wrappers {

  /** A value that may be absent: a missing JSON field, or a failed lookup. */
  datatype Option<+T> = None | Some(value: T) {

    /** The value, or `default` when absent (Python's `dict.get(key, default)`). */
    function GetOr(default: T): T {
      match this
      case Some(v) => v
      case None => default
    }
  }

  /** Either a result or the error that stopped it. */
  datatype Result<+T, +E> = Ok(value: T) | Err(error: E)
}
