/** Result types shared by every module. */
module Wrappers {

  datatype Option<+T> = None | Some(value: T)

  /** A Rust `Result<T, E>`. */
  datatype Result<+T, +E> = Ok(value: T) | Err(error: E)

  /** A Rust `Result<(), E>`. */
  datatype Outcome<+E> = Pass | Fail(error: E)
}
