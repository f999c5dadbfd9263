/** Outcome types shared by the models: a value or an error, in place of PHP exceptions. */
module Wrappers {

  datatype Option<+T> = None | Some(value: T)

  /** A computed value, or the exception that the source throws instead. */
  datatype Result<+T, +E> = Success(value: T) | Failure(error: E)

  /** For `void` operations: returned normally, or threw. */
  datatype Outcome<+E> = Pass | Fail(error: E)
}
