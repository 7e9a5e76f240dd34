/** Failure-compatible helper types shared by every module of the model. */
module Wrappers {

  /** A value that may be absent: Go's nil error, a map lookup that misses, ... */
  datatype Option<T> = None | Some(value: T)

  /** The outcome of a call that can fail with an error of type E. */
  datatype Result<T, E> = Ok(value: T) | Err(error: E)
}
