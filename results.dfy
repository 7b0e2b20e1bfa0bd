/** The optional and fallible values the model uses in place of nulls and exceptions. */
module Results {
  datatype Option<T> = None | Some(value: T)

  datatype Result<T, E> = Ok(value: T) | Err(error: E)
}
