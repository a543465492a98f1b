/** Results and optional values shared by the models. */
module Wrappers {

  datatype Option<+T> = None | Some(value: T)

  /** A Rust `Result`: a value, or the error that the caller logs and drops. */
  datatype Result<+T, +E> = Ok(value: T) | Err(error: E)
}
