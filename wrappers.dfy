/** Failure-compatible wrapper types shared by the normaliser modules. */
module Wrappers {

  /** A value that may be missing: Python's `Optional[T]` once `None` is ruled out as a payload. */
  datatype Option<+T> = None | Some(value: T)

  /** The outcome of an operation that raises in the source: `Err` stands for the exception. */
  datatype Result<+T, +E> = Ok(value: T) | Err(error: E)
}
