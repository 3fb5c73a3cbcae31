/** Optional values and success-or-error results, used wherever the Python code
    returns `None`, raises, or reads a key that may be absent; and the byte,
    the unit of file contents and of encoded audio. */
module Wrappers {

  /** A value that may be absent (`dict.get` returning `None`). */
  datatype Option<+T> = None | Some(value: T) {

    /** The value, or `default` when absent (`dict.get(key, default)`). */
    function GetOr(default: T): T {
      match this
      case Some(v) => v
      case None => default
    }
  }

  /** The outcome of an operation that either returns a value or raises. */
  datatype Result<+T, +E> = Ok(value: T) | Err(error: E)

  /** An element of a Python `bytes` value. */
  newtype byte = x: int | 0 <= x < 256
}
