/** Absent-or-present values and success-or-failure results. */
module Wrappers {

  /** A value that may be missing: JSON `null` and `undefined` both become None. */
  datatype Option<+T> = None | Some(value: T) {

    /** The value, or `padrao` when it is missing. */
    function GetOr(padrao: T): T {
      match this
      case Some(v) => v
      case None => padrao
    }
  }

  /** The outcome of an operation that may throw. */
  datatype Result<+R, +E> = Success(value: R) | Failure(error: E)
}
