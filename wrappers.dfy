/** The optional-value and result wrappers shared by every module of the model. */
module Wrappers {

  /** A value that may be absent; `None` stands for PHP's `null` where the source returns it. */
  datatype Option<+T> = None | Some(value: T)

  /** The outcome of an operation that the source ends by throwing an exception. */
  datatype Result<+T, +E> = Ok(value: T) | Err(error: E)
}
