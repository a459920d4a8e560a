/** Shared vocabulary: bytes, and the option and result types every layer uses. */
module Prelude {

  type Byte = b: int | 0 <= b < 256

  type Bytes = seq<Byte>

  datatype Option<+T> = None | Some(value: T)

  /** The two ways a Go function with an error return can come back. */
  datatype Result<+T, +E> = Ok(value: T) | Err(error: E)

}
