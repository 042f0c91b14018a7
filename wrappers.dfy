/** A success-or-error value, used where the source raises an exception. */
module Wrappers {

  datatype Result<+T, +E> = Ok(value: T) | Err(error: E)
}
