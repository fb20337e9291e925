/** Failure-carrying values shared by the model: Python's None and raised exceptions. */
module Wrappers {

  /** A value that may be absent, as Python's `None`. */
  datatype Option<T> = None | Some(value: T)

  /** The value of a computation that either returns or raises `error`. */
  datatype Result<T, E> = Ok(value: T) | Err(error: E)

  /** A computation that returns nothing on success, or raises `error`. */
  datatype Outcome<E> = Done | Failed(error: E)
}
