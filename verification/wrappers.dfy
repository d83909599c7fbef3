/** Failure-carrying values: the Swift optionals produced by `try?` and the
    errors a throwing function propagates. */
module Wrappers {

  datatype Option<+T> = None | Some(value: T)

  datatype Result<+T, +E> = Ok(value: T) | Err(error: E)
}
