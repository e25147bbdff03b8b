/** Optional values and error-carrying results, used wherever the Go code
    returns `(T, error)` or a nil-able value and the TypeScript code `T | null`. */
module Wrappers {

  datatype Option<+T> = None | Some(value: T)

  /** `Failure(message)` stands for a non-nil Go `error` whose `Error()` is `message`. */
  datatype Result<+T> = Success(value: T) | Failure(error: string)
}
