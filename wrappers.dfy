/** Failure-compatible wrappers shared by every module of the model. */
module Wrappers {

  /** An optional value, standing for JavaScript's `undefined` result of a lookup. */
  datatype Option<+T> = None | Some(value: T) {
    function GetOr(default: T): T {
      match this
      case Some(v) => v
      case None => default
    }
  }

  /** A value or the error an awaited call rejected with. */
  datatype Result<+R, +E> = Success(value: R) | Failure(error: E)

  /** The outcome of an awaited call that returns nothing: it resolved, or it threw. */
  datatype Outcome<+E> = Pass | Fail(error: E)
}
