/** Option and Result values used for the source's optional values and error returns. */
module Wrappers {

  /** A value that may be missing: a nil pointer, an absent map entry, a failed lookup. */
  datatype Option<+T> = None | Some(value: T)

  /** The outcome of a Go call returning `(value, error)`: the error carries its message. */
  datatype Result<+T> = Ok(value: T) | Err(msg: string)

  /** A Go call that returns only an `error`. */
  datatype Outcome = Pass | Fail(msg: string)
}
