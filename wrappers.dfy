/** Failure-carrying values shared by the other modules. */
module Wrappers {

  /** A value that may be absent (a JavaScript `undefined`). */
  datatype Option<+T> = None | Some(value: T)

  /** The settled value of an operation that either returns or throws. */
  datatype Result<+R, +E> = Ok(value: R) | Err(error: E)
}
