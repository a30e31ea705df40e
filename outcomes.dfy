/** Failure-carrying results for the Python code modelled here: every exception the
    source raises, or would raise at a failed lookup, becomes a `Failure`. */
module Outcomes {

  /** The Python exceptions the modelled code can end in. */
  datatype Error =
    | IndexError                      // a list or array position out of range
    | KeyError(key: string)           // a dictionary lookup of an absent key
    | AttributeError(field: string)   // a struct field the loaded file does not have
    | TypeError                       // an operation on a value of the wrong kind
    | ZeroDivisionError               // a float division by zero
    | UnboundLocalError(local: string) // a local variable read before any assignment
    | Raised(message: string)         // an explicit `raise Exception(message)`
    | OSError                         // a file that cannot be opened
    | ValueError                      // text that is not JSON, or an update element of another length than two
    | NonStringKey                    // not an exception: a key other than a string, which the model's dictionaries cannot hold

  datatype Option<+T> = None | Some(value: T)

  datatype Result<+T> = Success(value: T) | Failure(error: Error) {
    predicate IsFailure() { Failure? }

    function PropagateFailure<U>(): Result<U>
      requires Failure?
    {
      Failure(error)
    }

    function Extract(): T
      requires Success?
    {
      value
    }
  }
}
