/** Outcomes shared by the whole model. A Rust panic is an outcome like any other error, except that no
    handler can catch it: `Panic` is only ever passed upwards. */
module Wrappers {

  datatype Option<+T> = None | Some(value: T)

  datatype Error =
    | Overflow
    | NotFound
    | Unauthorized
    | Generic(msg: string)
    | Panic(reason: string)

  datatype Result<+T> = Ok(value: T) | Err(error: Error) {
    predicate IsFailure() {
      Err?
    }

    function PropagateFailure<U>(): Result<U>
      requires Err?
    {
      Err(error)
    }

    function Extract(): T
      requires Ok?
    {
      value
    }
  }
}
