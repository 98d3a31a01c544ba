/** Optional values and fallible results, for Swift optionals and thrown errors. */
module Wrappers {

  /** A Swift optional: `nil` or a value. */
  datatype Option<+T> = None | Some(value: T)

  /** The outcome of a call that may throw: a value, or the error it threw. */
  datatype Result<+T> = Success(value: T) | Failure(reason: string)
}
