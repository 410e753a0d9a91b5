/** Failure-carrying return values used in place of the source's exceptions and nil results. */
module Wrappers {

  /** A value that may be absent, as a `find_by` that finds nothing returns nil. */
  datatype Option<+T> = None | Some(value: T)

  /** Either the result of an operation or the error it was rejected with. */
  datatype Result<+T, +E> = Ok(value: T) | Err(error: E)
}
