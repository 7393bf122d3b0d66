/** Failure-compatible datatypes shared by every component. */
module Results {

  datatype Option<+T> = None | Some(value: T)

  /** The exceptions the modelled code throws, by kind. */
  datatype Error = Overflow | InvalidArgument | LogicError | RuntimeError

  datatype Result<+T> = Ok(value: T) | Err(error: Error) {
    predicate IsFailure() {
      Err?
    }

    function PropagateFailure<U>(): Result<U>
      requires Err?
    {
      Err(error)
    }

    function Extract(): T
      requires Ok?
    {
      value
    }
  }
}
