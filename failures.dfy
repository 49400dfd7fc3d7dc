/** Option, Result and the Python exceptions raised by the modelled code. */
module Failures {

  datatype Option<+T> = None | Some(value: T)

  /** The exceptions the modelled functions raise, each named after its Python class. */
  datatype Error =
    | KeyError(symbol: char)   // an unknown Pauli operator met by PauliBasis._apply
    | CommutationError         // PauliBasis.difference on non-commuting bases
    | AttributeError           // PauliBasis.results read before any assignment
    | IndexError               // jobs[0] of an empty job list, name[0] of an empty device name
    | ValueError               // a negative noise level
    | ZeroDivisionError        // evaluate_pauli on results whose weights sum to 0

  /** A value, or the exception that was raised instead. */
  datatype Result<+T> = Success(value: T) | Failure(error: Error) {

    predicate IsFailure() {
      Failure?
    }

    function PropagateFailure<U>(): Result<U>
      requires Failure?
    {
      Failure(error)
    }

    function Extract(): T
      requires Success?
    {
      value
    }
  }
}
