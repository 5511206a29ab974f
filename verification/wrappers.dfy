/** Failure-carrying result types shared by every module of the model. */
module Wrappers {

  /** A value that may be absent: a dictionary lookup, a parsed number. */
  datatype Option<+T> = None | Some(value: T)

  /** A computation that either produces a value or raises an error. */
  datatype Result<+T, +E> = Success(value: T) | Failure(error: E)
}
