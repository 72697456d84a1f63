/** Option and Result values, used for Python's `None` and for the exceptions
    the container raises. */
module Wrappers {

  datatype Option<+T> = None | Some(value: T)

  datatype Result<+R, +E> = Success(value: R) | Failure(error: E)

  /** The outcome of a call that returns nothing on success. */
  datatype Outcome<+E> = Pass | Fail(error: E)
}
