/** Small failure-compatible wrapper used across the model. */
module Wrappers {

  /** A value that may be absent: a JSON key that is missing, a lookup that finds nothing. */
  datatype Option<+T> = None | Some(value: T) {

    /** The wrapped value, or `default` when absent (Python's `dict.get(key, default)`). */
    function GetOr(default: T): T {
      match this
      case Some(v) => v
      case None => default
    }
  }
}
