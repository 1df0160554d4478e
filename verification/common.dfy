/** Small value types shared by every module of the model.

    Python's `None`, a provider call that answers or raises, and a
    computation that returns a value or raises an exception whose
    `str()` is the carried message. */
module Common {

  /** Python's `Optional[T]`. */
  datatype Option<+T> = None | Some(value: T) {

    /** `x or default` */
    function GetOr(default: T): T {
      match this
      case Some(v) => v
      case None => default
    }
  }

  /** The outcome of one round trip to a text provider: the generated
      text, or the failure's message (`str(e)`). A timeout is one failure. */
  datatype Outcome = Ok(text: string) | Err(msg: string)

  /** A value, or the message of the exception that was raised instead. */
  datatype Result<+T> = Success(value: T) | Failure(error: string)

  /** The message carried by a failed outcome (and "" for a success). */
  function ErrorText(o: Outcome): string {
    match o
    case Ok(_) => ""
    case Err(e) => e
  }
}
