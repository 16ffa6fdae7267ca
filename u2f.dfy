/** The values exchanged with the U2F engine. The engine itself (challenge generation,
    signature and attestation checks, counter-based clone detection) is not modelled:
    each of its calls is a function parameter of the operation that makes it, and these
    datatypes are the outcomes it can report. Serialised forms are opaque strings. */
module U2F {
  import opened Storage

  /** A registration challenge: its request id and its JSON form. */
  datatype RegisterRequestData = RegisterRequestData(requestId: RequestId, json: Json)

  /** What the engine's startRegistration can do: issue a challenge, or throw (for
      instance on a bad application id). */
  datatype RegistrationStart =
    | RegistrationChallenge(request: RegisterRequestData)
    | RegistrationStartRejected

  /** A parsed registration response; only its request id is looked at here. */
  datatype RegisterResponse = RegisterResponse(requestId: RequestId, body: Json)

  /** A device registration: key handle, JSON form (what is stored) and display form
      (what is returned to the caller). */
  datatype DeviceRegistration = DeviceRegistration(keyHandle: KeyHandle, json: Json, text: string)

  /** What the engine's finishRegistration can do. */
  datatype RegistrationOutcome =
    | Registered(registration: DeviceRegistration)
    | RegistrationRejected

  /** An authentication challenge. Its JSON form is stored; its display form is what
      the start of an authentication returns. The two are kept apart. */
  datatype AuthenticateRequestData = AuthenticateRequestData(requestId: RequestId, json: Json, text: string)

  /** What the engine's startAuthentication can do: issue a challenge, report that
      none of the given devices can be used, or throw for any other reason. */
  datatype AuthenticationStart =
    | Challenge(request: AuthenticateRequestData)
    | Ineligible
    | AuthenticationStartRejected

  /** A parsed authentication response; only its request id is looked at here. */
  datatype AuthenticateResponse = AuthenticateResponse(requestId: RequestId, body: Json)

  /** What the engine's finishAuthentication can do: accept the signature and return the
      updated registration; report a cloned device together with the registration as it
      now stands; or reject the response for any other reason. */
  datatype AuthenticationOutcome =
    | Verified(registration: DeviceRegistration)
    | Compromised(registration: DeviceRegistration)
    | AuthenticationRejected
}
