/** Failure-carrying datatypes shared by every module: the model's stand-ins for
    Python's `None` and for the exceptions the source raises. */
module Results {

  datatype Option<+T> = None | Some(value: T)

  /** The exceptions and exits that the modelled code can end in. */
  datatype Error =
    | ValueError(message: string)
    | KeyError(key: string)
    | IndexError
    | FileNotFound(path: string)
    | AgentFailure(reason: string)   // an exception raised by a model client
    | Exit(code: int)                // `sys.exit(code)`

  datatype Result<+T> = Success(value: T) | Failure(error: Error)

  datatype Outcome = Pass | Fail(error: Error)
}
