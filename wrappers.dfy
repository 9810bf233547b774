/** Absent values and failures, as the registry reports them. */
module Wrappers {

  /** `undefined` (None) or a value (Some). */
  datatype Option<+T> = None | Some(value: T)

  /** A value, or the error a JavaScript call would have thrown. */
  datatype Result<+T, +E> = Success(value: T) | Failure(error: E)
}
