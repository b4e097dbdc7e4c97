/** Small failure-carrying datatypes shared by the whole model. */
module Common {

  datatype Option<T> = None | Some(value: T)

  /** A value, or the message of the Python exception that replaced it. */
  datatype Result<T> = Ok(value: T) | Err(message: string)
}
