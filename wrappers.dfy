/** The two failure-carrying shapes the rest of the model uses. */
module Wrappers {

  /** A value that may be absent: a Go pointer field left nil, or a parse that failed. */
  datatype Option<+T> = None | Some(value: T)

  /** A value, or the error a Go function would have returned beside it. */
  datatype Result<+T, +E> = Ok(value: T) | Err(error: E)
}
