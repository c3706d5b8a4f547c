/** Optional values and results with an error, used where the logger can fail or may produce nothing. */
module Outcomes {

  datatype Option<+T> = None | Some(value: T)

  datatype Result<+T, +E> = Ok(value: T) | Err(error: E)
}
