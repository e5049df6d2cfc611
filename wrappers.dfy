/** Option and Result, with the few combinators the conversion code chains:
    `Option::map`, `Option::and_then` and `Option::transpose`. */
module Wrappers {

  datatype Option<+T> = None | Some(value: T) {
    /** `Option::ok_or`: an absent value becomes the given error. */
    function OkOr(error: string): Result<T>
    {
      match this
      case None => Err(error)
      case Some(v) => Ok(v)
    }
  }

  /** The error side is the text of an `anyhow` error, which is all a caller
      of the conversion ever sees of it. */
  datatype Result<+T> = Ok(value: T) | Err(error: string) {
    predicate IsFailure() {
      Err?
    }

    function PropagateFailure<U>(): Result<U>
      requires Err?
    {
      Err(error)
    }

    function Extract(): T
      requires Ok?
    {
      value
    }
  }

  function MapOption<T, U>(o: Option<T>, f: T -> U): Option<U>
  {
    match o
    case None => None
    case Some(v) => Some(f(v))
  }

  function AndThen<T, U>(o: Option<T>, f: T -> Option<U>): Option<U>
  {
    match o
    case None => None
    case Some(v) => f(v)
  }

  /** `Option<Result<T>>` to `Result<Option<T>>`: an absent value is a success
      holding nothing; a present one passes its success or its error through. */
  function Transpose<T>(o: Option<Result<T>>): Result<Option<T>>
  {
    match o
    case None => Ok(None)
    case Some(Ok(v)) => Ok(Some(v))
    case Some(Err(e)) => Err(e)
  }
}
