/** Values that stand in for Python's `None` and for the exceptions the
    toolkit raises. A call that raises returns `Err`/`Fail` carrying the
    exception's class; a call that returns normally returns `Ok`/`Pass`. */
module Errors {

  datatype Option<+T> = None | Some(value: T)

  /** The exception classes raised by the modelled code. `InUse` is the bare
      `Exception` raised by `BetterTkSettings.config`. `OSError` carries the
      sentinel value the failing foreign call returned. */
  datatype PyError =
    | ValueError
    | RuntimeError
    | NotImplementedError
    | KeyError
    | TclError
    | AssertionError
    | OverflowError
    | AttributeError
    | IndexError
    | InUse
    | OSError(value: int)

  datatype Result<+T> = Ok(value: T) | Err(error: PyError) {
    predicate IsFailure() { Err? }

    function PropagateFailure<U>(): Result<U>
      requires Err?
    {
      Err(error)
    }

    function Extract(): T
      requires Ok?
    {
      value
    }
  }

  datatype Outcome = Pass | Fail(error: PyError)
}
