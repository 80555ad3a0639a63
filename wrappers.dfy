/** Failure-carrying results shared by the whole model.  The source signals
    failure by raising Python exceptions or by returning None; the model
    returns `Err` with the kind of exception that would have been raised. */
module Wrappers {

  datatype Option<+T> = None | Some(value: T)

  /** The Python exceptions that the modelled code can raise. */
  datatype Error =
    | NotSubscriptable             // TypeError: subscripting or iterating a value of the wrong kind
    | KeyMissing(key: string)      // KeyError
    | IndexOutOfRange              // IndexError: `[0]` on an empty list
    | AttributeMissing             // AttributeError: an attribute the value lacks (a field of None, `sort` on a non-list)
    | UnboundLocal(name: string)   // UnboundLocalError: a local read before assignment
    | UnexpectedArgument             // TypeError: an unknown keyword argument
    | BadArgumentType(name: string)    // an argument whose JSON kind does not fit the parameter
    | Malformed                    // a payload whose shape the code cannot walk
    | EndOfInput                   // EOFError from `input()`

  datatype Result<+T> = Ok(value: T) | Err(error: Error) {
    predicate IsFailure() {
      Err?
    }

    function PropagateFailure<U>(): Result<U>
      requires Err?
    {
      Err(error)
    }

    function Extract(): T
      requires Ok?
    {
      value
    }
  }
}
