/** The outcome of a computation that may raise: a value, or the message of
    the exception that was raised instead. */
module Results {

  datatype Result<+T> = Ok(value: T) | Error(message: string) {

    predicate IsFailure() {
      Error?
    }

    function PropagateFailure<U>(): Result<U>
      requires Error?
    {
      Error(message)
    }

    function Extract(): T
      requires Ok?
    {
      value
    }
  }
}
