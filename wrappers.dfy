/** Python's `None` and Python's exceptions, as values. */
module Wrappers {

  /** A value that may be Python's `None`. */
  datatype Option<+T> = None | Some(value: T)

  /** The exceptions the modelled code can raise. */
  datatype PyError =
    | TypeError       // arithmetic on `None`, or a call with the wrong number of arguments
    | AttributeError  // a class attribute that was never assigned

  /** A call that returns a value or raises. */
  datatype Result<+T> = Ok(value: T) | Err(error: PyError)

  /** `x if x is not None else fallback`, the resolution idiom of every constructor. */
  function Or<T>(x: Option<T>, fallback: Option<T>): Option<T>
  {
    if x.Some? then x else fallback
  }
}
