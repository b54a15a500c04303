/** Absence and failure, as the rest of the project reports them. */
module Wrappers {

  datatype Option<+T> = None | Some(value: T)

  /** A value, or the reason there is none. */
  datatype Result<+T, +E> = Success(value: T) | Failure(error: E)
}
