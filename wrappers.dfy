/** Optional values and failure results shared by the other modules. */
module Wrappers {

  /** A value that may be absent, the counterpart of PHP's `null`. */
  datatype Option<+T> = None | Some(value: T)

  /** Either a result or the error a PHP method would have thrown. */
  datatype Result<+T, +E> = Ok(value: T) | Err(error: E)

  /** Success of a `void` PHP method, or the error it would have thrown. */
  datatype Outcome<+E> = Pass | Fail(error: E)
}
