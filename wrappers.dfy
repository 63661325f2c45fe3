/** Optional values and results with an error, as used by the rest of the model. */
module Wrappers {

  /** A value that may be absent (an `undefined` field of a JSON payload). */
  datatype Option<+T> = None | Some(value: T)

  /** A computation that either produced a value or failed with an error (a thrown `Error`). */
  datatype Result<+T, +E> = Ok(value: T) | Err(error: E)
}
