/** Option and Result: the two shapes in which the source reports absence and failure. */
module Wrappers {

  /** `Option<T>` of the source: a value that may be absent. */
  datatype Option<+T> = None | Some(value: T)

  /** `Result<T, E>` of the source: a value or the error that replaced it. */
  datatype Result<+T, +E> = Success(value: T) | Failure(error: E)
}
