/** Option and Result, the failure-carrying wrappers the rest of the model uses. */
module Wrappers {

  /** Rust's `Option`: an absent value or `Some(value)`. */
  datatype Option<+T> = None | Some(value: T)

  /** A computation that either produced `value` or failed with `error`. */
  datatype Result<+T, +E> = Ok(value: T) | Err(error: E)
}
