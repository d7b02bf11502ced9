/** Optional values and the Python exceptions the modelled code can raise.
    A raised exception becomes `Err(e)`; a normal return becomes `Ok(v)`. */
module Results {

  datatype Option<+T> = None | Some(value: T)

  /** The exceptions (and HTTP errors) the modelled handlers raise. */
  datatype PyError =
    | ValueError(message: string)
    | TypeError
    | AttributeError
    | IndexError
    | KeyError(key: string)
    | NotImplementedError
    | UnicodeDecodeError
    | JsonDecodeError
    | NetworkError
    | HttpError(status: int, code: string)

  datatype Result<+T> = Ok(value: T) | Err(error: PyError) {
    predicate IsFailure() { Err? }

    function PropagateFailure<U>(): Result<U>
      requires Err?
    {
      Err(error)
    }

    function Extract(): T
      requires Ok?
    {
      value
    }
  }
}
