/** Optional values and results with an error message, used across the model. */
module Wrappers {

  /** A value that may be absent (Python's `None`, Odoo's `False`). */
  datatype Option<+T> = None | Some(value: T)

  /** The outcome of an operation that may raise: a value, or the exception's text. */
  datatype Result<+T> = Success(value: T) | Failure(error: string)
}
