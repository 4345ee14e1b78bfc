/** Optional values and results with an error; the Go code's `(value, error)`
    pairs and nil-able replies. */
module Wrappers {

  datatype Option<+T> = None | Some(value: T)

  datatype Result<+T, +E> = Ok(value: T) | Err(error: E)
}
