/** Failure-carrying results shared by the model's modules. */
module Wrappers {

  datatype Option<+T> = None | Some(value: T)

  /** A Go `(value, error)` pair where the error, when present, wins. */
  datatype Result<+T, +E> = Ok(value: T) | Err(error: E)
}
