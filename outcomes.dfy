/** Option and Result values shared by every module of the model. */
module Outcomes {
  datatype Option<+T> = None | Some(value: T)

  /** What a handler returns: a value, or the error the source raises. */
  datatype Result<+T, +E> = Ok(value: T) | Err(error: E)
}
