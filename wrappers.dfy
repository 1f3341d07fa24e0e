/** Option and Result wrappers, and the Python exceptions the model raises. */
module Wrappers {

  /** The exceptions raised by the modelled code. `MissingParameter` is the
      failure of a parameter lookup, naming the parameter that was absent. */
  datatype Error =
    | ValueError
    | TypeError
    | NotImplementedError
    | IndexError
    | AttributeError
    | MissingParameter(name: string)

  datatype Option<+T> = None | Some(value: T)

  datatype Result<+T> = Success(value: T) | Failure(error: Error) {
    predicate IsFailure() {
      Failure?
    }

    function PropagateFailure<U>(): Result<U>
      requires Failure?
    {
      Failure(error)
    }

    function Extract(): T
      requires Success?
    {
      value
    }
  }
}
