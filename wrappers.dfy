/** Optional values, and the outcome of a call that may raise an exception
    that no caller in the scheduling core catches. */
module Wrappers {

  datatype Option<+T> = None | Some(value: T) {
    /** The value when present, even an empty one, and the default when
        absent: `dict.get(key, default)`, and `x or default` where a present
        `x` is never falsy. */
    function GetOr(default: T): T {
      match this
      case Some(v) => v
      case None => default
    }
  }

  /** Either the value a call returned, or the exception it raised. */
  datatype Outcome<+T> = Ok(value: T) | Raised(error: string)
}
