/** The shared result vocabulary: the checked exceptions of the orchestrator and the
    engine failures it lets through, as values instead of throws. */
module Errors {

  datatype Option<T> = None | Some(value: T)

  /** Why an operation failed. The exception classes of the source only format a
      message; the message text is not modelled, only what it is about. */
  datatype AuthError =
    | UserAlreadyExists(username: string)
    | InvalidPassword(disallowedCharacters: string)
    | NoEligibleDevices
    | DeviceCompromised(keyHandle: string)
    | UnknownRequestId(requestId: string)
    | EngineRejected

  datatype Result<T> = Ok(value: T) | Err(error: AuthError)
}
