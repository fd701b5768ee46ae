/**
 * The Python exceptions that the modelled code raises or catches, and the
 * result types that carry them in place of raising.
 */
module Wrappers {

  datatype Exc =
    | ValueError
    | KeyError
    | IndexError
    | TypeError
    | AttributeError
    | EndOfChainException
      /** Not a Python error: the model's fuel bound ran out where the
          Python loop would still be running. */
    | Diverged

  datatype Result<T> = Success(value: T) | Failure(error: Exc)
  {
    predicate IsFailure() { Failure? }
    function PropagateFailure<U>(): Result<U> requires Failure? { Failure(error) }
    function Extract(): T requires Success? { value }
  }

  datatype Option<T> = None | Some(value: T)
}
