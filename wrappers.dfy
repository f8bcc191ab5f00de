/** Option and Result types that model a raised exception as a value. */
module Wrappers {

  /** An optional value: a Python argument or field that may be `None` or omitted. */
  datatype Option<+T> = None | Some(value: T)

  /** A value, or the error that was raised instead of producing it. */
  datatype Result<+R, +E> = Success(value: R) | Failure(error: E)

  /** The outcome of a call that returns nothing but may raise. */
  datatype Outcome<+E> = Pass | Fail(error: E)
}
