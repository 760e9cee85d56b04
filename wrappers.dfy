/** Option and Result: null references and thrown exceptions of the source, as values. */
module Wrappers {

  /** `None` stands for a C# `null` (or for a failed step whose exception is not distinguished). */
  datatype Option<+T> = None | Some(value: T)

  /** `Failure` stands for an exception thrown by the source, `Success` for a normal return. */
  datatype Result<+T, +E> = Success(value: T) | Failure(error: E)
}
