/** The optional-value and outcome wrappers used throughout the model. */
module Wrappers {

  /** An optional value: the Python `None` or a present value. */
  datatype Option<+T> = None | Some(value: T)

  /** The outcome of an operation that can raise: a value or the error it raised. */
  datatype Result<+T, +E> = Success(value: T) | Failure(error: E)
}
