/** Option and Result values used across the model in place of Python's
    None and raised exceptions. */
module Wrappers {

  datatype Option<+T> = None | Some(value: T)

  /** The outcome of an operation that may raise: `Err` carries a short
      description of the exception. */
  datatype Result<+T> = Ok(value: T) | Err(error: string)

  function GetOr<T>(o: Option<T>, default: T): T
  {
    match o
    case Some(v) => v
    case None => default
  }
}
