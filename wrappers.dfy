/** Option and Result, standing for Go's nil pointers and `error` returns. */
module Wrappers {

  datatype Option<+T> = None | Some(value: T)

  /** A Go `(value, error)` pair: `Err` carries the error's text. */
  datatype Result<+T> = Ok(value: T) | Err(error: string)
}
