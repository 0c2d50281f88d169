/** Failure-carrying values shared by every module of the tracker. */
module Wrappers {

  /** A value that may be missing: an input that ran out, a text that did not parse. */
  datatype Option<+T> = None | Some(value: T)

  /** A value or the error that stopped the computation. */
  datatype Result<+T, +E> = Ok(value: T) | Err(error: E)
}
