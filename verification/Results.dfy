/** Optional values and error returns, as the Go sources use nil and (value, error). */
module Results {
  datatype Option<+T> = None | Some(value: T)

  datatype Result<+T, +E> = Ok(value: T) | Err(error: E)
}
