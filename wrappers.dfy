/** Optional values and failure-carrying results. */
module Wrappers {

  /** A value that may be absent: a nullable column, an optional input field,
      or a lookup that found nothing. */
  datatype Option<+T> = None | Some(value: T) {
    /** The value, or `default` when absent (TypeScript's `x ?? default`). */
    function GetOr(default: T): T {
      if Some? then value else default
    }
  }

  /** The outcome of an operation that may throw. */
  datatype Result<+T, +E> = Ok(value: T) | Err(error: E)
}
