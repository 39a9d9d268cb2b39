/** Null-or-value and value-or-exception wrappers shared by every module. */
module Wrappers {

  /** A reference or string that may be null. */
  datatype Option<+T> = None | Some(value: T)

  /** The value of a call that either returns or throws. */
  datatype Result<+T, +E> = Success(value: T) | Failure(error: E)

  /** The outcome of a void call that either returns or throws. */
  datatype Outcome<+E> = Pass | Fail(error: E)
}

/** The exceptions the modelled code throws, with the messages it gives them. */
module Exceptions {

  datatype Exception =
    | InvalidOperation(message: string)
    | ArgumentNull(paramName: string)
    | Argument(message: string, paramName: string)
    | NotSupported(message: string)
    | NullReference
    | Overflow
    /** A plain System.Exception with a message. */
    | Error(message: string)
    /** DataServiceException(statusCode, message). */
    | DataService(statusCode: int, message: string)
}
