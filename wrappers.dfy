/** Option and Result: a value that may be unset, and an outcome that may be an error. */
module Wrappers {

  /** An optional value; `None` plays the part of a C# `null`. */
  datatype Option<+T> = None | Some(value: T)

  /** The outcome of an operation that can fail with an error of type `E`. */
  datatype Result<+T, +E> = Success(value: T) | Failure(error: E)
}
