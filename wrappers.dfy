/** Optional values and the outcome of an operation that may throw. */
module Wrappers {
  datatype Option<T> = None | Some(value: T)

  /** `Fail(message)` stands for an exception with that message escaping the operation. */
  datatype Result<T> = Ok(value: T) | Fail(message: string)
}
