/** The two result types used throughout the model. */
module Wrappers {

  /** A nullable column or pointer. */
  datatype Option<+T> = None | Some(value: T)

  /** The source's `(value, error)` returns: the error carries its message class. */
  datatype Result<+T, +E> = Success(value: T) | Failure(error: E)
}
