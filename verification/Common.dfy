/** Result types shared by every service of the model. */
module Common {

  datatype Option<+T> = None | Some(value: T)

  /** The HTTP exceptions the services throw: 404, 409, 400 and 401. */
  datatype Error = NotFound | Conflict | BadRequest | Unauthorized

  /** The outcome of a service call; an Err rolls the surrounding transaction back. */
  datatype Result<+T> = Ok(value: T) | Err(error: Error) {
    predicate IsFailure() {
      Err?
    }

    function PropagateFailure<U>(): Result<U>
      requires Err?
    {
      Err(error)
    }

    function Extract(): T
      requires Ok?
    {
      value
    }
  }

  function Min(a: int, b: int): int {
    if a <= b then a else b
  }

  function Max(a: int, b: int): int {
    if a >= b then a else b
  }
}
