/** Failure-compatible result types shared by the whole model. */
module Wrappers {

  datatype Option<+T> = None | Some(value: T)

  /** A value, or the exception that the source would have thrown instead. */
  datatype Result<+R, +E> = Success(value: R) | Failure(error: E)

  /** Normal completion of a void method, or the exception it threw. */
  datatype Outcome<+E> = Pass | Fail(error: E)
}
