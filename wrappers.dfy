/** Option and Result, and the Python exceptions the modelled code lets escape. */
module Wrappers {

  datatype Option<+T> = None | Some(value: T) {
    function GetOr(default: T): T {
      match this
      case Some(v) => v
      case None => default
    }
  }

  /** A Python exception that propagates out of a modelled function. */
  datatype Error =
    | ValueError(message: string)
    | KeyError(key: string)
    | IndexError
    | AttributeError(attribute: string)
    | TypeError
    | NameError(name: string)

  datatype Result<+T> = Ok(value: T) | Err(error: Error)

  /** Python truthiness of an optional string. */
  predicate Truthy(s: Option<string>) {
    s.Some? && s.value != ""
  }
}
