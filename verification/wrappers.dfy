/** Option and Result values used wherever the JavaScript code returns
    `null`/`undefined` or throws an `Error` with a message. */
module Wrappers {

  /** A value that may be absent (`null`, `undefined` or a hole in an array). */
  datatype Option<+T> = None | Some(value: T)

  /** The outcome of an operation that can throw: either a value or the
      message of the `Error` it throws. */
  datatype Result<+T> = Ok(value: T) | Err(message: string) {

    predicate IsFailure() {
      Err?
    }

    function PropagateFailure<U>(): Result<U>
      requires Err?
    {
      Err(message)
    }

    function Extract(): T
      requires Ok?
    {
      value
    }
  }

  /** A check that either passes or fails with a message; used with `:-`
      inside a function returning a `Result`. */
  datatype Outcome = Pass | Fail(message: string) {

    predicate IsFailure() {
      Fail?
    }

    function PropagateFailure<U>(): Result<U>
      requires Fail?
    {
      Err(message)
    }
  }

  /** Fails with `message` unless `condition` holds. */
  function Need(condition: bool, message: string): (r: Outcome)
    ensures r.Pass? <==> condition
  {
    if condition then Pass else Fail(message)
  }
}
