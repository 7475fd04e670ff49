/** Go's `(value, error)` returns, with the error carried as its message text. */
module Wrappers {

  /** A value, or the text of the Go `error` that was returned instead. */
  datatype Result<+T> = Ok(value: T) | Err(error: string)

  /** A Go function that returns only an `error` (nil when it passed). */
  datatype Outcome = Pass | Fail(error: string)
}
