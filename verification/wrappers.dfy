/** Option and Result, used for Java's nullable fields and for the
    exceptions the planner can raise. */
module Wrappers {

  /** A Java field that may be `null`. */
  datatype Option<+T> = None | Some(value: T)

  /** The outcome of a computation that may throw. */
  datatype Result<+T, +E> = Ok(value: T) | Err(error: E)
}
