/** Failure-carrying result types shared by the adapter modules. */
module Wrappers {

  datatype Option<+T> = None | Some(value: T)

  /** A Python call either returns a value or raises an exception. */
  datatype Result<+T, +E> = Success(value: T) | Failure(error: E)

  /** A call run only for its effects either completes or raises. */
  datatype Outcome<+E> = Pass | Fail(error: E)
}
