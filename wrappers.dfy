/** Failure-compatible wrappers: Python's `Optional[...]` and a value-or-error result
    standing in for a constructor that either returns an instance or raises `ValueError`. */
module Wrappers {

  /** `None` or a present value, as Python's `Optional[T]`. */
  datatype Optional<+T> = None | Some(value: T)

  /** The outcome of a validating constructor: the built value, or the check that failed. */
  datatype Result<+T, +E> = Ok(value: T) | Err(error: E)
}
