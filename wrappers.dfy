/**
 * Optional values and success-or-error results, used wherever the modelled
 * code returns None or raises an exception that a caller handles.
 */
module Wrappers {
  datatype Option<T> = None | Some(value: T)

  datatype Result<T, E> = Ok(value: T) | Err(error: E)
}
