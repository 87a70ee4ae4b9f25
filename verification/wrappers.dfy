/** Optional values and success/failure results, used wherever the modelled code
    returns `None`/`undefined` or raises. */
module Wrappers {

  /** A value that may be missing: Python's `None`, TypeScript's `undefined`. */
  datatype Option<+T> = None | Some(value: T) {

    /** The `??` operator: the value when present, else `default`.
        Only a missing value falls through; a present empty one does not. */
    function GetOr(default: T): T {
      match this
      case Some(v) => v
      case None => default
    }
  }

  /** Either a computed value or the error the code raises instead. */
  datatype Result<+R, +E> = Success(value: R) | Failure(error: E) {

    predicate IsFailure() {
      Failure?
    }

    function PropagateFailure<U>(): Result<U, E>
      requires Failure?
    {
      Failure(error)
    }

    function Extract(): R
      requires Success?
    {
      value
    }
  }
}
