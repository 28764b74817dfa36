/** Optional values and results, standing for JavaScript's `null`/`undefined`
    and for thrown errors. */
module Wrappers {

  /** `None` is a value that is `null` or `undefined`. */
  datatype Option<+T> = None | Some(value: T) {
    /** `x ?? fallback` */
    function GetOr(fallback: T): T {
      if Some? then value else fallback
    }
  }

  /** A value or the error that was raised instead of it. */
  datatype Result<+T, +E> = Success(value: T) | Failure(error: E)
}
