/** Option and Result: the model's stand-ins for Python's `None` and for raised exceptions. */
module Wrappers {

  datatype Option<+T> = None | Some(value: T)

  /** Either a value or the error a stage of the compiler raises instead of returning one. */
  datatype Result<+T, +E> = Ok(value: T) | Err(error: E)
}
