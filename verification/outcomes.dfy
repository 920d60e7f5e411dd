/** Absent values and error-or-value results, as the rest of the model uses them. */
module Outcomes {

  /** A value that may be missing, such as an option left `undefined`. */
  datatype Option<+T> = None | Some(value: T) {

    /** The value, or `fallback` when missing (the rule of lodash `_.defaults` for one key). */
    function GetOr(fallback: T): T {
      match this
      case Some(v) => v
      case None => fallback
    }
  }

  /** The value an operation returns, or the error it throws. */
  datatype Result<+T, +E> = Success(value: T) | Failure(error: E)
}
