/** Failure-carrying values shared by the whole model: `Option` for the
    source's nullable values and `Result` for calls that may throw. */
module Wrappers {

  datatype Option<+T> = None | Some(value: T) {
    /** Kotlin's `?:` on a nullable value. */
    function GetOr(default: T): T {
      match this
      case Some(v) => v
      case None => default
    }
  }

  /** The outcome of a call that either returns a value or throws an
      exception (Kotlin's `Result`, `runCatching`); an exception's message
      may be null. */
  datatype Result<+T> = Ok(value: T) | Err(message: Option<string>) {
    function GetOrDefault(default: T): T {
      match this
      case Ok(v) => v
      case Err(_) => default
    }

    function GetOrNull(): Option<T> {
      match this
      case Ok(v) => Some(v)
      case Err(_) => None
    }

    /** `exceptionOrNull()?.message`: null on success, and null as well
        for an exception without a message. */
    function ExceptionMessage(): Option<string> {
      match this
      case Ok(_) => None
      case Err(m) => m
    }
  }
}
