/** Failure-aware result types shared by the stores, the importer and the passes. */
module Wrappers {

  /** A value that may be absent: Python's `None` or an SQL NULL. */
  datatype Option<+T> = None | Some(value: T)

  /** A value or the error that a call raised instead of returning it. */
  datatype Result<+R, +E> = Success(value: R) | Failure(error: E)

  /** Completion of a call that returns nothing: it either finished or raised. */
  datatype Outcome<+E> = Pass | Fail(error: E)
}
