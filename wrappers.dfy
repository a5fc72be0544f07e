/** Optional values and call outcomes, shared by every module of the model. */
module Wrappers {

  /** A value that may be missing (JavaScript's `null`/`undefined`, or a `false` sentinel). */
  datatype Option<+T> = None | Some(value: T) {
    function GetOr(default: T): T {
      match this
      case Some(v) => v
      case None => default
    }
  }

  /** The outcome of a call that resolves with a value or rejects with an error. */
  datatype Result<+R, +E> = Success(value: R) | Failure(error: E)
}
