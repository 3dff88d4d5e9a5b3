/** Failure-carrying wrappers shared by every module.
    `Result` stands for a Python call that either returns a value or raises. */
module Wrappers {

  datatype Option<+T> = None | Some(value: T)

  /** `Raised(message)` is an exception that escapes the modelled call. */
  datatype Result<+T> = Ok(value: T) | Raised(message: string)
  {
    predicate IsFailure() { Raised? }

    function PropagateFailure<U>(): Result<U>
      requires Raised?
    {
      Raised(message)
    }

    function Extract(): T
      requires Ok?
    {
      value
    }
  }
}
