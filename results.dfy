/** Option and Result, the two sum types the Rust code returns and matches on. */
module Results {

  datatype Option<+T> = None | Some(value: T)

  /** `Result<T, E>`: `Ok(value)` on success, `Err(error)` on failure. */
  datatype Result<+T, +E> = Ok(value: T) | Err(error: E)
}
