/** Optional values and error-carrying results, used where the source has `undefined`,
    `null` or a thrown `Error`. */
module Wrappers {

  /** A value that may be absent (JavaScript `undefined` / `null`). */
  datatype Option<+T> = None | Some(value: T) {
    function GetOr(default: T): T {
      match this
      case Some(v) => v
      case None => default
    }
  }

  /** The outcome of an operation that either returns a value or throws an `Error` whose
      `message` is `error`. */
  datatype Result<+R> = Success(value: R) | Failure(error: string)

  /** The outcome of an `async` operation that returns nothing or throws. */
  datatype Outcome = Pass | Fail(error: string)
}
