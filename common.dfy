/** Optional values and results shared by the model's modules. */
module Common {

  datatype Option<T> = None | Some(value: T)

  /** A computation that either yields a value or raises an error. */
  datatype Result<T, E> = Ok(value: T) | Err(error: E)

  /** One byte of a PHP byte string. */
  newtype Byte = b: int | 0 <= b < 256
}
