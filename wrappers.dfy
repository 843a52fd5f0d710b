/** Optional values and results with an error, used wherever the listbox code may hold
    `undefined` or may throw. */
module Wrappers {

  /** A value that may be absent (`undefined` in the listbox code). */
  datatype Option<+T> = None | Some(value: T)

  /** The outcome of an operation that may throw. */
  datatype Result<+T, +E> = Ok(value: T) | Err(error: E)
}
