/** Optional values (Java's null) and results (Java's exceptions). */
module Wrappers {

  /** A value that may be missing; `None` stands for Java's `null`. */
  datatype Option<+T> = None | Some(value: T)

  /** The outcome of an operation that may throw: `Err` carries the exception. */
  datatype Result<+T, +E> = Ok(value: T) | Err(error: E)
}
