/** Option and Result values used for the missing-key and failed-build paths of the model. */
module Wrappers {

  /** A value that may be absent: a dictionary entry that is not there, an unset slot. */
  datatype Option<+T> = None | Some(value: T)

  /** The outcome of an operation that raises in the source: either its value or the error it raised. */
  datatype Result<+R, +E> = Success(value: R) | Failure(error: E)
}
