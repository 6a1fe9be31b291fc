/** Failure-compatible return types used across the model, and the Python
    exceptions the modelled code can raise. */
module Wrappers {

  datatype Option<+T> = None | Some(value: T) {
    predicate IsFailure() { None? }

    function PropagateFailure<U>(): Option<U>
      requires None?
    {
      None
    }

    function Extract(): T
      requires Some?
    {
      value
    }
  }

  /** The exceptions the modelled code raises, named after their Python classes. */
  datatype PyError =
    | KeyError(key: string)            // a missing dict key or a missing DataFrame label
    | AttributeError(attr: string)     // `getattr` on a module that lacks the name
    | IndexError                       // `X.shape[1]` on an array with fewer than two dimensions
    | ValueError                       // `np.array` on rows of different lengths

  datatype Result<+R> = Ok(value: R) | Err(error: PyError) {
    predicate IsFailure() { Err? }

    function PropagateFailure<U>(): Result<U>
      requires Err?
    {
      Err(error)
    }

    function Extract(): R
      requires Ok?
    {
      value
    }
  }
}
