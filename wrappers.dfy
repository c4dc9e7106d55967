/** The error-or-value wrapper used for operations that throw in the original program. */
module Wrappers {

  datatype Result<T, E> = Ok(value: T) | Err(error: E)
}
