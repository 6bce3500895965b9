/** Optional values and success-or-error results used across the model. */
module Wrappers {

  /** A value that may be absent (a selectbox with no preselected entry). */
  datatype Option<+T> = None | Some(value: T)

  /** The outcome of an operation that raises in the source on bad input. */
  datatype Result<+R, +E> = Success(value: R) | Failure(error: E)
}
