/** Failure-carrying datatypes shared by the other modules. */
module Wrappers {

  /** A value that may be missing: Python's `None` or a dictionary lookup that found nothing. */
  datatype Option<+T> = None | Some(value: T)

  /** A request handler either produces a value or raises; `E` names the exception. */
  datatype Result<+T, +E> = Success(value: T) | Failure(error: E)
}
