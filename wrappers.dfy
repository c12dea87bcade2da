/** Option and Result for the model: Python's None and its raised exceptions. */
module Wrappers {

  datatype Option<+T> = None | Some(value: T)

  /** The exceptions the wrapper's code can raise, by Python class. RequestError stands for
      whatever `requests.get` or `Response.json()` raises. */
  datatype PyError =
    | KeyError
    | IndexError
    | TypeError
    | ValueError
    | AttributeError
    | ZeroDivisionError
    | RequestError

  /** A Python computation: either its value or the exception it raised. */
  datatype Result<+T> = Ok(value: T) | Err(error: PyError) {
    predicate IsFailure() { Err? }

    function PropagateFailure<U>(): Result<U>
      requires Err?
    {
      Err(error)
    }

    function Extract(): T
      requires Ok?
    {
      value
    }
  }
}
