/** Optional values and the outcome of an awaited network call. */
module Wrappers {

  /** A value that may be absent (`undefined` or `null` in the client). */
  datatype Option<+T> = None | Some(value: T) {
    /** The value, or `default` when absent (the client's `x || default`). */
    function GetOr(default: T): T {
      match this
      case Some(v) => v
      case None => default
    }
  }

  /** What a `catch` block receives: an `Error` object with its message, or any other thrown value. */
  datatype Thrown = ErrorObject(message: string) | NonError

  /** The result of one awaited API call: it resolves with a value or rejects with a thrown value. */
  datatype Outcome<+T> = Ok(value: T) | Err(thrown: Thrown)
}
