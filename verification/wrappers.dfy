/** Optional values and error results, standing in for Go's nil pointers and `error` returns. */
module Wrappers {

  datatype Option<+T> = None | Some(value: T)

  datatype Result<+T, +E> = Success(value: T) | Failure(error: E)

  /** The `error` a Go function returns: nil, or an error with its message. */
  datatype Outcome = Ok | Err(msg: string)

  /** Error text for failures reported by the storage layer (storm's own messages are not modelled). */
  const StoreError := "storage error"

  /** Error text for failures reported by the Twitch REST API client. */
  const ApiError := "api error"
}
