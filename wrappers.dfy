/** Option, Result and Outcome datatypes shared by the model's modules. */
module Wrappers {

  /** A value that may be absent (JavaScript's `undefined`). */
  datatype Option<+T> = None | Some(value: T)

  /** The value of a computation that either returns or throws. */
  datatype Result<+R, +E> = Success(value: R) | Failure(error: E)

  /** The outcome of an operation run for its effect: it completes or throws. */
  datatype Outcome<+E> = Pass | Fail(error: E)
}
