/** Option and Result, the two failure-carrying shapes the model uses. */
module Wrappers {

  /** Python's `Optional[T]`: a value or None. */
  datatype Option<+T> = None | Some(value: T)

  /** A value, or the message of the exception the source raises instead. */
  datatype Result<+R> = Ok(value: R) | Err(message: string)
}
