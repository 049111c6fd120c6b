/** Failure values shared by the model: an optional value, and the outcome of an
    operation that either produces a value or raises one of the Python exceptions
    the modelled code can raise. */
module Wrappers {

  datatype Option<+T> = None | Some(value: T)

  /** The Python exception classes raised by the modelled code. */
  datatype PyError =
    | ValueError      // an unknown label string, an unsupported domain
    | KeyError        // a missing dictionary key or label index
    | StopIteration   // `next` over a generator that yields nothing
    | AttributeError  // an attribute that was never assigned

  datatype Result<+T> = Ok(value: T) | Err(error: PyError)
}
