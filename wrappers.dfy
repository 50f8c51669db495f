/** Optional values and results with an error, shared by every module of the model. */
module Wrappers {

  datatype Option<+T> = None | Some(value: T)

  /** The outcome of a Go call that returns `(value, error)`. */
  datatype Result<+T, +E> = Ok(value: T) | Err(error: E)
}

/** Octets, as carried by Go's `[]byte`. */
module Bytes {
  type byte = x: int | 0 <= x < 256
}
