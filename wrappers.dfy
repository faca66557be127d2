// Option and Result types shared by every module of the model.
module Wrappers {

  datatype Option<T> = None | Some(value: T)
  {
    function UnwrapOr(default: T): T
    {
      match this
      case None => default
      case Some(v) => v
    }
  }

  /** Python truthiness of an optional number: None and zero are false. */
  predicate Truthy(v: Option<real>)
  {
    v.Some? && v.value != 0.0
  }

  /** A Python exception or error return is an `Err` carrying the error's name. */
  datatype Result<T> = Ok(value: T) | Err(error: string)
}
