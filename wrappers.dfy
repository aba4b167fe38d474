/** Optional values and results with an error, as used across the model. */
module Wrappers {

  /** `None` plays the part of JavaScript's `null` (or of a call that threw). */
  datatype Option<+T> = None | Some(value: T)

  datatype Result<+T, +E> = Ok(value: T) | Err(error: E)
}
