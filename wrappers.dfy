/** Option and Result values: an absent value, and the outcome of an
    operation that either succeeds or fails with an error. */
module Wrappers {

  datatype Option<+T> = None | Some(value: T)

  datatype Result<+T, +E> = Ok(value: T) | Err(error: E)
}
