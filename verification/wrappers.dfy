/** Failure-carrying values shared by every module: Go's `(T, error)` pairs and
    nil-able references become Result and Option. */
module Wrappers {

  datatype Option<+T> = None | Some(value: T)

  datatype Result<+T, +E> = Ok(value: T) | Err(error: E)

  /** One octet, as Go's `byte`. */
  type Byte = b: int | 0 <= b < 256
}
