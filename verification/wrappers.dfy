/** Plain `Option` and `Result` datatypes shared by the other modules. */
module Wrappers {

  /** A value that may be absent: a JavaScript `null`/`undefined` or falsy option. */
  datatype Option<+T> = None | Some(value: T)

  /** The outcome of an operation that may throw: `Failure` carries the thrown message. */
  datatype Result<+R, +E> = Success(value: R) | Failure(error: E)
}
