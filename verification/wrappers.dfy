/** Option and Result wrappers used throughout the model. */
module Wrappers {

  /** A value that may be absent. `None` plays the role of a missing JSON
      key, or of Python's `None` where the views pass it on. */
  datatype Option<+T> = None | Some(value: T) {

    /** The wrapped value, or `default` when absent: Python's
        `d.get(key, default)` once the lookup itself is done. */
    function GetOr(default: T): T {
      match this
      case Some(v) => v
      case None => default
    }
  }

  /** Either a value or the error that stopped the computation. */
  datatype Result<+T, +E> = Ok(value: T) | Err(error: E)
}
