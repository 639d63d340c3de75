/** Failure-carrying result types shared by the other modules. */
module Outcomes {

  /** A value that may be absent (Python's `Optional`, `None` included). */
  datatype Option<+T> = None | Some(value: T)

  /** The outcome of an operation that may raise instead of returning. */
  datatype Result<+T, +E> = Ok(value: T) | Err(error: E)
}
