/** Types shared by every module of the project. */
module Prelude {

  datatype Option<+T> = None | Some(value: T)

  /** A value, or the error that the program raises in its place. */
  datatype Result<+T, +E> = Ok(value: T) | Err(error: E)
}
