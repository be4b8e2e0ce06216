/** Option and Result, the two failure-carrying shapes the model uses for Python's
    `None` and for exceptions. */
module Wrappers {

  /** A value that may be missing, as Python's `Optional[T]`. */
  datatype Option<+T> = None | Some(value: T) {

    /** The value, or `default` when it is missing. */
    function GetOr(default: T): T {
      match this
      case Some(v) => v
      case None => default
    }
  }

  /** The outcome of a call that may raise: its value, or the text of the exception. */
  datatype Result<+T> = Success(value: T) | Failure(error: string) {

    predicate IsFailure() {
      Failure?
    }

    /** The same exception, re-raised from a caller expecting another result type. */
    function PropagateFailure<U>(): Result<U>
      requires Failure?
    {
      Failure(error)
    }

    function Extract(): T
      requires Success?
    {
      value
    }
  }
}
