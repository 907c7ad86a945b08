/** Failure-carrying return types, used where the application catches an exception. */
module Wrappers {

  datatype Option<+T> = None | Some(value: T)
  {
    predicate IsFailure()
    {
      None?
    }

    function PropagateFailure<U>(): Option<U>
      requires None?
    {
      None
    }

    function Extract(): T
      requires Some?
    {
      value
    }
  }

  datatype Result<+R, +E> = Ok(value: R) | Err(error: E)
}
