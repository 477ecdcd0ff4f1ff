/** Failure-carrying values: the Python driver signals failure by raising, the model by returning. */
module Wrappers {

  datatype Option<T> = None | Some(value: T)

  /** The value a Python function returns, or the exception it raises. */
  datatype Result<T, E> = Ok(value: T) | Err(error: E)

  /** The outcome of a Python procedure that returns nothing: it finished, or it raised. */
  datatype Outcome<E> = Done | Raised(error: E)
}
