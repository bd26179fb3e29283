/** Error kinds the modelled code raises, and the result types that carry them. */
module Wrappers {

  /** The Python exception classes the modelled code can raise. */
  datatype Error =
    | ValueError
    | KeyError
    | IndexError
    | TypeError
    | AttributeError
    | NameError
    | ZeroDivisionError
    | RuntimeError
    | UnboundLocalError

  /** A value, or the exception that was raised instead of producing it. */
  datatype Result<+T> = Ok(value: T) | Err(error: Error)

  /** The outcome of a step that returns nothing but may raise. */
  datatype Outcome = Pass | Fail(error: Error)

  datatype Option<+T> = None | Some(value: T)
}
