/** Failure-carrying values shared by every module: the Go `(value, error)` pairs. */
module Wrappers {

  datatype Option<+T> = None | Some(value: T)

  /** A Go result: either a value, or the text of the `error` that was returned. */
  datatype Result<+T> = Ok(value: T) | Err(error: string)
}
