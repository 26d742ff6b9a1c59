/** Option and Result datatypes shared by the other modules. */
module Wrappers {

  /** A value that may be absent: `null`/`undefined` in JavaScript, `None` in Python. */
  datatype Option<+T> = None | Some(value: T)

  /** The outcome of a call that may raise. */
  datatype Result<+R, +E> = Success(value: R) | Failure(error: E)
}
