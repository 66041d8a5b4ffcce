/** Option and Result, and the exceptions the framework raises while building a reply. */
module Wrappers {

  datatype Option<T> = None | Some(value: T)

  /** An exception thrown by the service-provider code itself. */
  datatype Fault =
    | InternalErrorFault(message: string)   // InternalErrorException: an enum value the switch does not list
    | NullReferenceFault                    // a member access on a null reference
    | AssertionFault(message: string)       // IsTrue()/IsNotNull() found its condition false
    | DuplicateKeyFault                     // ToDictionary or Dictionary.Add met a key twice

  datatype Result<T> = Success(value: T) | Failure(error: Fault)
  {
    predicate IsFailure() { Failure? }

    function PropagateFailure<U>(): Result<U>
      requires Failure?
    {
      Failure(error)
    }

    function Extract(): T
      requires Success?
    {
      value
    }
  }
}
