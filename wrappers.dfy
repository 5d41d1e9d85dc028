/** Optional values and results shared by the modules of this model. */
module Wrappers {

  /** A value that may be absent: JavaScript's `undefined` / `null`. */
  datatype Option<+T> = None | Some(value: T)

  /** An outcome that is either a value or an error, for code that throws. */
  datatype Result<+T, +E> = Success(value: T) | Failure(error: E)
}
