/** Optional values and results: the two ways the modelled code reports absence and failure. */
module Outcomes {

  datatype Option<+T> = None | Some(value: T)

  /** A value, or the exception that replaced it. */
  datatype Result<+T, +E> = Ok(value: T) | Err(error: E)
}
