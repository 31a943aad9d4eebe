/** Optional values and error returns shared by the worker model. */
module Wrappers {

  /** A value that may be absent, such as an environment variable
      read with `os.environ.get`. */
  datatype Option<+T> = None | Some(value: T)

  /** The outcome of an operation that can raise instead of returning. */
  datatype Result<+T, +E> = Ok(value: T) | Err(error: E)
}
