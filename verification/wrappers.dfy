/** The Option and Result types used by the model. */
module Wrappers {

  /** A value that may be absent; stands for Kotlin's nullable types. */
  datatype Option<+T> = None | Some(value: T)

  /** The outcome of an operation that may stop with an error instead of a value. */
  datatype Result<+T, +E> = Success(value: T) | Failure(error: E)
}
