// Option and Result wrappers shared by every module.

module Base {

  datatype Option<T> = None | Some(value: T)

  /** The outcome of a Python call that may raise: the value, or the raised exception's kind. */
  datatype Result<T> = Ok(value: T) | Err(error: string)
}
