/** Optional values and the success-or-error outcome of an operation that can throw. */
module Wrappers {

  datatype Option<T> = None | Some(value: T)

  /** `Failure(message)` stands for a thrown `Error` whose `message` is `message`. */
  datatype Result<T> = Success(value: T) | Failure(message: string)
}
