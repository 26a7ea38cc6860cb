/** Failure-carrying result types shared by every module of the model. */
module Wrappers {

  /** A possibly absent value: Go's nil pointer or missing map entry. */
  datatype Option<+T> = None | Some(value: T)

  /** Go's `(T, error)` pair when the value is meaningless on error. */
  datatype Result<+T> = Ok(value: T) | Err(msg: string) {

    predicate IsFailure() {
      Err?
    }

    function PropagateFailure<U>(): Result<U>
      requires Err?
    {
      Err(msg)
    }

    function Extract(): T
      requires Ok?
    {
      value
    }
  }
}
