/** Optional values and results with an error, as the tools' arguments and replies use them. */
module Wrappers {

  /** A Python `Optional[...]` argument: `None` or a value. */
  datatype Option<+T> = None | Some(value: T)

  /** The outcome of a builder: the request it would send, or the error text it returns instead. */
  datatype Result<+T, +E> = Success(value: T) | Failure(error: E)
}
