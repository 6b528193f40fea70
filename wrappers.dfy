/** Optional values and failure results, as used throughout the model. */
module Wrappers {

  /** A nullable value: `None` stands for SQL NULL / Python `None`. */
  datatype Option<+T> = None | Some(value: T)

  /** The outcome of an operation that may raise. */
  datatype Result<+T, +E> = Ok(value: T) | Err(error: E)
}
