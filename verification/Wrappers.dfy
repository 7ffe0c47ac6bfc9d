// The two result shapes the model uses in place of Go's (value, error) pairs.
module Wrappers {
  datatype Option<+T> = None | Some(value: T)

  // A Go call either returns a value, returns an error, or panics.
  datatype Result<+T, +E> = Ok(value: T) | Err(error: E) | Panic
}
