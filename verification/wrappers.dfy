/** Failure-carrying values used in place of the exceptions the token store throws. */
module Wrappers {

  datatype Option<+T> = None | Some(value: T) {
    /** Success for Some, the given error for None. */
    function ToResult<E>(error: E): Result<T, E> {
      match this
      case Some(v) => Success(v)
      case None => Failure(error)
    }
  }

  datatype Result<+R, +E> = Success(value: R) | Failure(error: E)

  /** The outcome of an operation that returns nothing on success. */
  datatype Outcome<+E> = Pass | Fail(error: E)
}
