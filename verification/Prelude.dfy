/** Small datatypes shared by every module of the model. */
module Prelude {

  datatype Option<+T> = None | Some(value: T)

  datatype Result<+T, +E> = Ok(value: T) | Err(error: E)

  /** An octet on the wire or in a file. */
  type Byte = n: int | 0 <= n < 256
}
