/** Option and Result types shared by every module of the model. */
module Wrappers {

  datatype Option<T> = None | Some(value: T) {
    function GetOr(default: T): T {
      match this
      case Some(v) => v
      case None => default
    }
  }

  /** The Python exceptions that the modelled code can let escape. */
  datatype Exception = AttributeError | TypeError | KeyError

  /** Either a value or a raised exception. */
  datatype Result<T> = Ok(value: T) | Raise(exc: Exception)
}
