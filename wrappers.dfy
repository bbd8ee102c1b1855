/** Option and Result, with the Python exceptions the modelled code can raise. */
module Wrappers {

  datatype Option<T> = None | Some(value: T)

  /** The exception classes the tools raise (and do not catch) on malformed input. */
  datatype PyError =
    | TypeError(what: string)
    | KeyError(key: string)
    | ValueError(what: string)
    | IndexError(what: string)
    | AttributeError(what: string)
    | UnboundLocalError(name: string)
    | Exit(why: string)          // sys.exit / exit called by the tool

  /** The outcome of a call that either returns a value or raises. */
  datatype Result<T> = Ok(value: T) | Err(error: PyError)
  {
    predicate IsFailure() { Err? }

    function PropagateFailure<U>(): Result<U>
      requires Err?
    {
      Err(error)
    }

    function Extract(): T
      requires Ok?
    {
      value
    }
  }
}
