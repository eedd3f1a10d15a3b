/** Option and Result values shared by the model's modules. */
module Wrappers {

  datatype Option<+T> = None | Some(value: T)

  /** A success value or an error value; the model's stand-in for a thrown exception. */
  datatype Result<+T, +E> = Success(value: T) | Failure(error: E)
}
