/** Failure-carrying values shared by every module: Java's nullable references
    become Option, and a thrown exception that a caller may see becomes Result. */
module Wrappers {

  datatype Option<+T> = None | Some(value: T)

  datatype Result<+T, +E> = Ok(value: T) | Err(error: E)

  /** The outcome of a void call: it returned, or it threw. */
  datatype Outcome<+E> = Pass | Fail(error: E)
}
