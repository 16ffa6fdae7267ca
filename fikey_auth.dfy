/** The challenge/response orchestrator: four operations that sequence reads and writes
    on the pending-request store and the device registry around calls to the U2F engine.
    Each operation is given once as a function on the storage content (the specification)
    and once as a method of FiKeyAuth that performs the same steps on the storage object. */
module FiKey {
  import opened Errors
  import opened Storage
  import opened U2F

  /** The characters the (disabled) password rule names in its error. */
  const DisallowedCharacters: string := "&%"

  /** The user-existence check, a stub that reports no user as existing. */
  function AlreadyExists(username: Username): (found: bool)
    ensures !found
  {
    false
  }

  /** The password check, a stub that accepts every password. The character rule it
      once applied is dead code and is not modelled. */
  function PasswordIsInvalid(password: string): (invalid: bool)
    ensures !invalid
  {
    false
  }

  /** The refusal, if any, before a registration starts: existence is checked first,
      so a user who exists is refused as such whatever the password. */
  function RegistrationRefusal(userExists: bool, passwordInvalid: bool, username: Username): (e: Option<AuthError>)
    ensures e.None? <==> !userExists && !passwordInvalid
    ensures userExists ==> e == Some(UserAlreadyExists(username))
    ensures !userExists && passwordInvalid ==> e == Some(InvalidPassword(DisallowedCharacters))
  {
    if userExists then Some(UserAlreadyExists(username))
    else if passwordInvalid then Some(InvalidPassword(DisallowedCharacters))
    else None
  }

  /** Starting a registration: the engine's challenge, built over the user's current
      devices, is stored under its request id and its JSON form is returned, and nothing
      but that one pending entry changes. As written the call is never refused with
      UserAlreadyExists or InvalidPassword; it fails only when the engine throws, and
      then stores nothing. */
  function StartRegistration(s: State, appId: string, username: Username, password: string,
                             startRegistration: (string, Devices) -> RegistrationStart): (o: Step<Json>)
    ensures o.result.Err? ==> o.result.error == EngineRejected
    ensures var start := startRegistration(appId, DevicesOf(s, username));
      && (start.RegistrationChallenge? ==>
            && o.result == Ok(start.request.json)
            && o.state.requests == s.requests[start.request.requestId := start.request.json]
            && o.state.devices == s.devices)
      && (start.RegistrationStartRejected? ==> o == Step(s, Err(EngineRejected)))
  {
    match RegistrationRefusal(AlreadyExists(username), PasswordIsInvalid(password), username)
    case Some(e) => Step(s, Err(e))
    case None =>
      match startRegistration(appId, DevicesOf(s, username))
      case RegistrationStartRejected => Step(s, Err(EngineRejected))
      case RegistrationChallenge(request) =>
        Step(PutRequest(s, request.requestId, request.json), Ok(request.json))
  }

  /** Finishing a registration. The pending request is consumed before the engine is
      called, so it is gone afterwards whatever the engine says; an id that is not
      pending fails and changes nothing. The engine is handed exactly the consumed
      challenge. On success its registration is upserted at (username, key handle) and
      its display form returned; on rejection no device is written. */
  function FinishRegistration(s: State, response: RegisterResponse, username: Username,
                              finishRegistration: (Json, RegisterResponse) -> RegistrationOutcome): (o: Step<string>)
    ensures o.state.requests == s.requests - {response.requestId}
    ensures DevicesKept(s, o.state)
    ensures response.requestId !in s.requests ==>
      o == Step(s, Err(UnknownRequestId(response.requestId)))
    ensures response.requestId in s.requests ==>
      var outcome := finishRegistration(s.requests[response.requestId], response);
      && (outcome.Registered? ==>
            && o.result == Ok(outcome.registration.text)
            && Upserted(s, o.state, username, outcome.registration.keyHandle, outcome.registration.json))
      && (outcome.RegistrationRejected? ==>
            o.result == Err(EngineRejected) && o.state.devices == s.devices)
  {
    var taken := TakeRequest(s, response.requestId);
    match taken.result
    case Err(e) => Step(taken.state, Err(e))
    case Ok(challenge) =>
      match finishRegistration(challenge, response)
      case RegistrationRejected => Step(taken.state, Err(EngineRejected))
      case Registered(registration) =>
        Step(UpsertDevice(taken.state, username, registration.keyHandle, registration.json),
             Ok(registration.text))
  }

  /** The engine's authentication challenge over `devices`, with its report that no
      device is eligible turned into the orchestrator's own error; any other failure of
      the engine passes through as EngineRejected. */
  function GetAuthenticateRequestData(appId: string, devices: Devices,
                                      startAuthentication: (string, Devices) -> AuthenticationStart): (r: Result<AuthenticateRequestData>)
    ensures startAuthentication(appId, devices).Ineligible? <==> r == Err(NoEligibleDevices)
    ensures startAuthentication(appId, devices).AuthenticationStartRejected? <==> r == Err(EngineRejected)
    ensures startAuthentication(appId, devices).Challenge? <==> r.Ok?
    ensures startAuthentication(appId, devices).Challenge? ==>
      r == Ok(startAuthentication(appId, devices).request)
  {
    match startAuthentication(appId, devices)
    case Ineligible => Err(NoEligibleDevices)
    case AuthenticationStartRejected => Err(EngineRejected)
    case Challenge(request) => Ok(request)
  }

  /** Starting an authentication over the user's current devices. When the engine finds
      no eligible device the call fails and stores nothing, and so it does when the
      engine throws for another reason; otherwise the challenge's
      JSON form is stored under its request id and its display form is returned. The
      password is not looked at. */
  function StartAuthentication(s: State, appId: string, username: Username, password: string,
                               startAuthentication: (string, Devices) -> AuthenticationStart): (o: Step<string>)
    ensures var start := startAuthentication(appId, DevicesOf(s, username));
      && (start.Ineligible? ==> o == Step(s, Err(NoEligibleDevices)))
      && (start.AuthenticationStartRejected? ==> o == Step(s, Err(EngineRejected)))
      && (start.Challenge? ==>
            && o.result == Ok(start.request.text)
            && o.state.requests == s.requests[start.request.requestId := start.request.json]
            && o.state.devices == s.devices)
  {
    match GetAuthenticateRequestData(appId, DevicesOf(s, username), startAuthentication)
    case Err(e) => Step(s, Err(e))
    case Ok(request) => Step(PutRequest(s, request.requestId, request.json), Ok(request.text))
  }

  /** The engine's verdict on an authentication response, given the consumed challenge
      and the user's devices as they are now. A clone report writes the registration the
      engine supplies at (username, key handle) and then fails; a verified response
      writes nothing yet; any other rejection writes nothing. */
  function CompleteAuthentication(s: State, username: Username, response: AuthenticateResponse, challenge: Json,
                                  finishAuthentication: (Json, AuthenticateResponse, Devices) -> AuthenticationOutcome): (o: Step<DeviceRegistration>)
    ensures o.state.requests == s.requests
    ensures DevicesKept(s, o.state)
    ensures var outcome := finishAuthentication(challenge, response, DevicesOf(s, username));
      && (outcome.Verified? ==> o == Step(s, Ok(outcome.registration)))
      && (outcome.Compromised? ==>
            && o.result == Err(DeviceCompromised(outcome.registration.keyHandle))
            && Upserted(s, o.state, username, outcome.registration.keyHandle, outcome.registration.json))
      && (outcome.AuthenticationRejected? ==> o == Step(s, Err(EngineRejected)))
  {
    match finishAuthentication(challenge, response, DevicesOf(s, username))
    case Verified(registration) => Step(s, Ok(registration))
    case Compromised(registration) =>
      Step(UpsertDevice(s, username, registration.keyHandle, registration.json),
           Err(DeviceCompromised(registration.keyHandle)))
    case AuthenticationRejected => Step(s, Err(EngineRejected))
  }

  /** Finishing an authentication. The pending request is consumed first, whatever
      follows; an id that is not pending fails and changes nothing. A verified response
      upserts the engine's updated registration and returns its display form. A clone
      report upserts the registration the engine supplies and fails. Any other
      rejection writes no device. */
  function FinishAuthentication(s: State, response: AuthenticateResponse, username: Username,
                                finishAuthentication: (Json, AuthenticateResponse, Devices) -> AuthenticationOutcome): (o: Step<string>)
    ensures o.state.requests == s.requests - {response.requestId}
    ensures DevicesKept(s, o.state)
    ensures response.requestId !in s.requests ==>
      o == Step(s, Err(UnknownRequestId(response.requestId)))
    ensures response.requestId in s.requests ==>
      var outcome := finishAuthentication(s.requests[response.requestId], response, DevicesOf(s, username));
      && (outcome.Verified? ==>
            && o.result == Ok(outcome.registration.text)
            && Upserted(s, o.state, username, outcome.registration.keyHandle, outcome.registration.json))
      && (outcome.Compromised? ==>
            && o.result == Err(DeviceCompromised(outcome.registration.keyHandle))
            && Upserted(s, o.state, username, outcome.registration.keyHandle, outcome.registration.json))
      && (outcome.AuthenticationRejected? ==>
            o.result == Err(EngineRejected) && o.state.devices == s.devices)
  {
    var taken := TakeRequest(s, response.requestId);
    match taken.result
    case Err(e) => Step(taken.state, Err(e))
    case Ok(challenge) =>
      var checked := CompleteAuthentication(taken.state, username, response, challenge, finishAuthentication);
      match checked.result
      case Err(e) => Step(checked.state, Err(e))
      case Ok(registration) =>
        Step(UpsertDevice(checked.state, username, registration.keyHandle, registration.json),
             Ok(registration.text))
  }

  /** The orchestrator object. The storage is handed in rather than fetched from a
      process-wide instance; the engine's calls are parameters of the operations. */
  class FiKeyAuth {
    const appId: string
    const storage: DataStorage
    const disallowedCharacters: string := DisallowedCharacters

    constructor (appId: string, storage: DataStorage)
      ensures this.appId == appId && this.storage == storage
      ensures disallowedCharacters == DisallowedCharacters
    {
      this.appId := appId;
      this.storage := storage;
    }

    method StartDeviceRegistration(username: Username, password: string,
                                   startRegistration: (string, Devices) -> RegistrationStart) returns (r: Result<Json>)
      modifies storage
      ensures Step(storage.Snapshot(), r) == StartRegistration(old(storage.Snapshot()), appId, username, password, startRegistration)
    {
      if AlreadyExists(username) {
        r := Err(UserAlreadyExists(username));
        return;
      }
      if PasswordIsInvalid(password) {
        r := Err(InvalidPassword(disallowedCharacters));
        return;
      }
      var userDevices := storage.GetDevicesFromUser(username);
      var start := startRegistration(appId, userDevices);
      if start.RegistrationStartRejected? {
        r := Err(EngineRejected);
        return;
      }
      var registerRequest := start.request;
      storage.AddRequest(registerRequest.requestId, registerRequest.json);
      r := Ok(registerRequest.json);
    }

    method FinishDeviceRegistration(response: RegisterResponse, username: Username,
                                    finishRegistration: (Json, RegisterResponse) -> RegistrationOutcome) returns (r: Result<string>)
      modifies storage
      ensures Step(storage.Snapshot(), r) == FinishRegistration(old(storage.Snapshot()), response, username, finishRegistration)
    {
      var registerRequest := storage.RemoveRequest(response.requestId);
      if registerRequest.Err? {
        r := Err(registerRequest.error);
        return;
      }
      var outcome := finishRegistration(registerRequest.value, response);
      if outcome.RegistrationRejected? {
        r := Err(EngineRejected);
        return;
      }
      var registration := outcome.registration;
      storage.AddDeviceToUser(username, registration.keyHandle, registration.json);
      r := Ok(registration.text);
    }

    method StartDeviceAuthentication(username: Username, password: string,
                                     startAuthentication: (string, Devices) -> AuthenticationStart) returns (r: Result<string>)
      modifies storage
      ensures Step(storage.Snapshot(), r) == StartAuthentication(old(storage.Snapshot()), appId, username, password, startAuthentication)
    {
      var userDevices := storage.GetDevicesFromUser(username);
      var authenticateRequestData := GetAuthenticateRequestData(appId, userDevices, startAuthentication);
      if authenticateRequestData.Err? {
        r := Err(authenticateRequestData.error);
        return;
      }
      var request := authenticateRequestData.value;
      storage.AddRequest(request.requestId, request.json);
      r := Ok(request.text);
    }

    method FinishDeviceAuthentication(response: AuthenticateResponse, username: Username,
                                      finishAuthentication: (Json, AuthenticateResponse, Devices) -> AuthenticationOutcome) returns (r: Result<string>)
      modifies storage
      ensures Step(storage.Snapshot(), r) == FinishAuthentication(old(storage.Snapshot()), response, username, finishAuthentication)
    {
      var authenticateRequest := storage.RemoveRequest(response.requestId);
      if authenticateRequest.Err? {
        r := Err(authenticateRequest.error);
        return;
      }
      var registration := GetDeviceRegistration(username, response, authenticateRequest.value, finishAuthentication);
      if registration.Err? {
        r := Err(registration.error);
        return;
      }
      storage.AddDeviceToUser(username, registration.value.keyHandle, registration.value.json);
      r := Ok(registration.value.text);
    }

    method GetDeviceRegistration(username: Username, response: AuthenticateResponse, challenge: Json,
                                 finishAuthentication: (Json, AuthenticateResponse, Devices) -> AuthenticationOutcome) returns (r: Result<DeviceRegistration>)
      modifies storage
      ensures Step(storage.Snapshot(), r) == CompleteAuthentication(old(storage.Snapshot()), username, response, challenge, finishAuthentication)
    {
      var userDevices := storage.GetDevicesFromUser(username);
      var outcome := finishAuthentication(challenge, response, userDevices);
      match outcome
      case Verified(registration) =>
        r := Ok(registration);
      case Compromised(registration) =>
        storage.AddDeviceToUser(username, registration.keyHandle, registration.json);
        r := Err(DeviceCompromised(registration.keyHandle));
      case AuthenticationRejected =>
        r := Err(EngineRejected);
    }
  }
}
