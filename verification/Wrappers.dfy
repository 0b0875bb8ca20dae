/** Result types shared by the whole model. */
module Wrappers {

  datatype Option<+T> = None | Some(value: T)

  /** A value, or the reason why the source throws. */
  datatype Result<+T, +E> = Ok(value: T) | Err(error: E)
}
