/** Failure-carrying return values: Python raises, the model returns. */
module Wrappers {

  datatype Option<+T> = None | Some(value: T)

  datatype Result<+R, +E> = Success(value: R) | Failure(error: E)

  /** An operation that either completes or raises `error`, returning nothing. */
  datatype Outcome<+E> = Pass | Fail(error: E)
}
