/** Option and Result, the failure-carrying datatypes the rest of the model uses
    for SQL NULLs and for the exceptions the application raises. */
module Wrappers {

  /** A nullable value: `None` is SQL NULL / Python `None`. */
  datatype Option<+T> = None | Some(value: T) {

    /** The value, or `default` when it is NULL (Python's `x or default` on a non-zero value). */
    function GetOr(default: T): T {
      match this
      case Some(v) => v
      case None => default
    }
  }

  /** The outcome of an operation that may raise. */
  datatype Result<+R, +E> = Success(value: R) | Failure(error: E) {

    predicate IsFailure() {
      Failure?
    }

    function PropagateFailure<U>(): Result<U, E>
      requires Failure?
    {
      Failure(error)
    }

    function Extract(): R
      requires Success?
    {
      value
    }
  }
}
