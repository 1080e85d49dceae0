/** Optional values and results with an error, as used throughout the model. */
module Wrappers {

  /** A value that may be absent: JavaScript's `undefined` for an optional field. */
  datatype Option<+T> = None | Some(value: T)

  /** Either a value or the message of the error the source throws. */
  datatype Result<+R, +E> = Success(value: R) | Failure(error: E)
}
