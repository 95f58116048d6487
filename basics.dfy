/** Failure-carrying wrappers shared by the modules of the model. */
module Basics {

  /** A value that may be absent; an absent error means the operation succeeded. */
  datatype Option<+T> = None | Some(value: T)

  /** Either a value or the error that prevented it. */
  datatype Result<+T, +E> = Success(value: T) | Failure(error: E)
}
