/** Optional values and results with an exception, used by the whole model. */
module Wrappers {

  /** A possibly absent value; `None` stands for a .NET `null`. */
  datatype Option<+T> = None | Some(value: T)

  /** A value or the exception that was thrown instead of producing it. */
  datatype Result<+R, +E> = Success(value: R) | Failure(error: E)

  /** Completion of an operation that produces no value (a plain `Task`). */
  datatype Outcome<+E> = Pass | Fail(error: E)
}
