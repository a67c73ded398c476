/** The engine's single error kind and the result/option wrappers used throughout the model. */
module Diag {

  /** `SpreadSheetError::Message`: every failure carries only a human-readable message. */
  datatype Error = Message(text: string)

  /** `SpreadSheetResult<T>`: a value or the error that stopped the computation. */
  datatype Result<+T> = Ok(value: T) | Err(error: Error) {
    predicate IsFailure() { Err? }

    function PropagateFailure<U>(): Result<U>
      requires Err?
    {
      Err(error)
    }

    function Extract(): T
      requires Ok?
    {
      value
    }
  }

  datatype Option<+T> = None | Some(value: T) {
    function GetOr(default: T): T {
      match this
      case Some(v) => v
      case None => default
    }
  }

  /** There is one successful `Result<()>`. */
  lemma {:induction false} SuccessIsUnit(r: Result<()>)
    requires r.Ok?
    ensures r == Ok(())
  {
    match r.value { case () => }
  }
}
