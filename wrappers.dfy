/** Go's `(T, error)` returns, and values that may be absent, as datatypes. */
module Wrappers {
  datatype Option<T> = None | Some(value: T)

  /** A computation that either produced a value or failed with an error text. */
  datatype Result<T> = Ok(value: T) | Err(error: string)
}
