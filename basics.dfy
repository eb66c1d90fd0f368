/** Option and Result: how the model writes Python's `None` results and raised exceptions. */
module Basics {

  datatype Option<+T> = None | Some(value: T)

  /** `Err` stands for an exception the source raises; `Ok` for a normal return. */
  datatype Result<+T, +E> = Ok(value: T) | Err(error: E)
}
