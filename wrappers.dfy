/** Option and Result, the two failure-carrying datatypes the model uses. */
module Wrappers {

  /** A possibly absent value; `None` stands for a null (NaN) cell of the table. */
  datatype Option<+T> = None | Some(value: T)

  /** The value of a computation that may raise: `Failure` carries the exception. */
  datatype Result<+R, +E> = Success(value: R) | Failure(error: E)
}
