/** Optional values and fallible results. */
module Wrappers {

  /** A value that may be absent, such as a JSON key the object does not carry. */
  datatype Option<+T> = None | Some(value: T) {

    /** The value if present, otherwise `default` (Python's `dict.get(key, default)`). */
    function GetOr(default: T): T {
      match this
      case Some(v) => v
      case None => default
    }
  }

  /** The outcome of an operation that can fail, carrying the reason for a failure. */
  datatype Result<+T> = Ok(value: T) | Failed(reason: string)
}
