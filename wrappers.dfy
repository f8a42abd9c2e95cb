/** Option and Result, the two shapes every outcome in this model takes. */
module Wrappers {

  /** A value that may be absent: what a service returns when it finds nothing. */
  datatype Option<+T> = None | Some(value: T)

  /** Either a typed value or the error that prevented building it. */
  datatype Result<+R, +E> = Ok(value: R) | Err(error: E)
}
