/** Failure-compatible wrappers shared by every module of the model. */
module Wrappers {

  /** Python's `None`, or a present value. */
  datatype Option<+T> = None | Some(value: T)

  /** A value, or the exception a Python call raised instead. */
  datatype Result<+R, +E> = Success(value: R) | Failure(error: E)

  /** Completion of a Python call that returns nothing: normal, or by an exception. */
  datatype Outcome<+E> = Pass | Fail(error: E)
}
