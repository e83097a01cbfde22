/** Failure-carrying result types shared by every module: Go's `(value, error)`
    pairs become `Result`, and error-only returns become `Outcome`. */
module Wrappers {

  datatype Option<+T> = None | Some(value: T)

  /** A value or the text of the error that replaced it. */
  datatype Result<+T> = Ok(value: T) | Err(error: string)

  /** The result of a check that returns only an error. */
  datatype Outcome<+E> = Pass | Fail(error: E)
}
