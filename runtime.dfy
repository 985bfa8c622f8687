/** The fragment of the Python runtime that the model needs: optional values and
    the exceptions the modelled code can raise, carried by a failure-compatible
    Result so that a raise propagates with `:-` just as it unwinds in Python. */
module Runtime {

  datatype Option<+T> = None | Some(value: T)

  /** The exception classes the modelled functions raise. */
  datatype Exception =
    | ValueError(message: string)
    | KeyError(key: string)
    | IndexError
    | TypeError
    | AttributeError
    | UnboundLocalError(name: string)
    | RecursionError

  datatype Result<+T> = Ok(value: T) | Err(error: Exception) {
    predicate IsFailure() { Err? }

    function PropagateFailure<U>(): Result<U>
      requires Err?
    {
      Err(error)
    }

    function Extract(): T
      requires Ok?
    {
      value
    }
  }
}
