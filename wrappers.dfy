/** Optional values and results with an error message, shared by the modules of this model. */
module Wrappers {

  /** A value that may be absent (JavaScript's `undefined` where a lookup finds nothing). */
  datatype Option<+T> = None | Some(value: T)

  /** The outcome of an operation that either succeeds with a value or is rejected with a reason. */
  datatype Result<+T> = Ok(value: T) | Err(reason: string)
}
