/** Option and Result values for the source's `Option<T>` and `Result<T, E>` returns. */
module Results {

  datatype Option<+T> = None | Some(value: T)

  datatype Result<+T, +E> = Ok(value: T) | Err(error: E)
}
