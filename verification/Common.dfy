/** Small value types shared by the models of the individual stores. */
module Common {

  datatype Option<+T> = None | Some(value: T)

  /** An operation either yields a value or is refused with an error. */
  datatype Result<+T, +E> = Ok(value: T) | Err(error: E)

  function Min(a: int, b: int): int { if a < b then a else b }
}
