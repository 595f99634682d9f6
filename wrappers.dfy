/** Optional and failure-carrying values shared by the other modules. */
module Wrappers {

  /** A value that may be missing. An indicator entry that pandas would hold as
      NaN (warm-up, 0/0) is `None`. */
  datatype Option<+T> = None | Some(value: T)

  /** The outcome of an operation that can raise. */
  datatype Result<+T, +E> = Ok(value: T) | Err(error: E)
}
