/** Optional values and the outcome of a Python call that may raise. */
module Outcomes {

  datatype Option<T> = None | Some(value: T)

  /** The Python exceptions that the modelled code can raise. */
  datatype PyError = IndexError | ValueError

  /** What a Python call produces: its return value, or the exception it raised. */
  datatype PyResult<T> = Ok(value: T) | Raised(error: PyError)
}
