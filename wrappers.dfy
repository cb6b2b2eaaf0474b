/** Wrappers used to model C#'s nullable references and exceptions. */
module Wrappers {

  /** A value that may be absent (a C# `null`). */
  datatype Option<+T> = None | Some(value: T)

  /** The value of an operation that either returns or throws. */
  datatype Result<+R, +E> = Success(value: R) | Failure(error: E)

  /** The outcome of a `void` operation that either returns or throws. */
  datatype Outcome<+E> = Pass | Fail(error: E)
}
