/** Failure-carrying values: Go's `error` results and optional values. */
module Wrappers {

  /** An optional value; for an `error` result, `None` stands for nil. */
  datatype Option<+T> = None | Some(value: T)

  /** A value or the text of the error that prevented it. */
  datatype Result<+T> = Ok(value: T) | Err(msg: string)
}
