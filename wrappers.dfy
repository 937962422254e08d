/** Option and Result values standing in for the source's `null`/`undefined`
    and for thrown errors. */
module Wrappers {

  datatype Option<+T> = None | Some(value: T) {
    /** `x || fallback` for a value that is never falsy when present. */
    function GetOr(fallback: T): T {
      match this
      case Some(v) => v
      case None => fallback
    }
  }

  /** A settled promise or a call that may throw: the value or the error message. */
  datatype Result<+T> = Success(value: T) | Failure(error: string)
}
