/** Small value types shared by every module: Go's `error` values and the
    optional / fallible results that stand for Go's `(T, error)` returns. */
module Wrappers {

  /** A Go `error`: only its message (`err.Error()`) is observable here. */
  datatype Error = Error(message: string)

  /** A value that may be absent (a nil pointer, a nil error). */
  datatype Option<+T> = None | Some(value: T)

  /** The outcome of a fallible call: a value, or the error it returned. */
  datatype Result<+T> = Success(value: T) | Failure(error: Error)
}
