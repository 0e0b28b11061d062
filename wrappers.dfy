/** Option and Result values standing in for Go's `error` returns. */
module Wrappers {

  /** An optional value; `None` is Go's nil error. */
  datatype Option<T> = None | Some(value: T)

  /** A value or an error; the error is identified by its message. */
  datatype Result<T> = Ok(value: T) | Err(error: string)
}
