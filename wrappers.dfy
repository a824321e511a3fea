/** Option and Result, used wherever the source raises an exception or
    looks up something that may be missing. */
module Wrappers {

  datatype Option<+T> = None | Some(value: T)

  datatype Result<+T, +E> = Ok(value: T) | Err(error: E)
}
