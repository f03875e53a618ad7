/** Optional values and results with an error message, as used across the model. */
module Wrappers {

  datatype Option<T> = None | Some(value: T)

  datatype Result<T> = Success(value: T) | Failure(error: string)

  /** A status without a payload (absl::Status). */
  datatype Status = Ok | Error(message: string)
}
