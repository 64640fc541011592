/** Optional values and the outcome of one request to the remote API. */
module Wrappers {

  /** A value that may be missing (an optional field, `null`, an absent URL parameter). */
  datatype Option<+T> = None | Some(value: T) {
    /** The value, or `default` when it is missing. JavaScript's `x || default`
        also replaces a present falsy value such as `""`; every use here has that
        value as its default, so the two agree. */
    function GetOr(default: T): T
    {
      match this
      case Some(v) => v
      case None => default
    }
  }

  /** What an awaited API call produces: the response payload, or a thrown error.
      The error itself is never inspected beyond showing a notification. */
  datatype Outcome<+T> = Ok(payload: T) | Fail
}
