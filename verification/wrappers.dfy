/** Failure-carrying datatypes shared by the geometry and the stage modules. */
module Wrappers {

  /** A value that may be absent; stands for Python's `None`. */
  datatype Option<+T> = None | Some(value: T)

  /** The outcome of an operation that Python would abort with an exception. */
  datatype Result<+T, +E> = Success(value: T) | Failure(error: E)
}
