/** Option, Result and the error values that the services raise or return. */
module Base {

  datatype Option<+T> = None | Some(value: T)

  /** The exceptions and HTTP errors the modelled code raises, as values. */
  datatype Error =
    | KeyError(key: string)
    | TypeError(message: string)
    | ValueError(message: string)
    | AttributeError(message: string)
    | HttpError(status: int, detail: string)

  datatype Result<+T> = Ok(value: T) | Err(error: Error)

  /** The result of an operation that returns nothing but may raise. */
  datatype Outcome = Pass | Fail(error: Error)

  /** An optional string argument is truthy: present and not empty. */
  predicate NonEmpty(s: Option<string>)
  {
    s.Some? && s.value != ""
  }
}
