/** Outcomes of calls into the hosted auth/database client, which the model
    takes as inputs instead of performing them. */
module Wrappers {

  /** A value that may be absent: JavaScript's `null`/`undefined` next to a value. */
  datatype Option<+T> = None | Some(value: T)

  /** A call that returns data or fails with an error. */
  datatype Result<+R, +E> = Success(value: R) | Failure(error: E)

  /** A call that returns no data and may fail with an error. */
  datatype Outcome<+E> = Pass | Fail(error: E)
}
