/** Optional values and results that carry a JavaScript error message. */
module Wrappers {

  datatype Option<+T> = None | Some(value: T)

  /** The outcome of an evaluation that may throw: a value, or the message of the thrown error. */
  datatype Result<+T> = Success(value: T) | Failure(error: string)
}
