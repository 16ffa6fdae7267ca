/** Properties of the orchestrator that relate several calls: single consumption of a
    challenge, the registration and authentication round trip, and what holds over any
    sequence of operations. */
module FiKeyProperties {
  import opened Errors
  import opened Storage
  import opened U2F
  import opened FiKey

  /** One call of one of the four public operations, with the engine call it makes. */
  datatype Operation =
    | StartReg(username: Username, password: string,
               startRegistration: (string, Devices) -> RegistrationStart)
    | FinishReg(registerResponse: RegisterResponse, username: Username,
                finishRegistration: (Json, RegisterResponse) -> RegistrationOutcome)
    | StartAuth(username: Username, password: string,
                startAuthentication: (string, Devices) -> AuthenticationStart)
    | FinishAuth(authenticateResponse: AuthenticateResponse, username: Username,
                 finishAuthentication: (Json, AuthenticateResponse, Devices) -> AuthenticationOutcome)

  function Apply(s: State, appId: string, op: Operation): Step<string>
  {
    match op
    case StartReg(u, p, begin) => StartRegistration(s, appId, u, p, begin)
    case FinishReg(response, u, complete) => FinishRegistration(s, response, u, complete)
    case StartAuth(u, p, begin) => StartAuthentication(s, appId, u, p, begin)
    case FinishAuth(response, u, complete) => FinishAuthentication(s, response, u, complete)
  }

  /** The storage content after the operations, one after the other, whatever each returned. */
  function Run(s: State, appId: string, ops: seq<Operation>): State
    decreases |ops|
  {
    if ops == [] then s else Run(Apply(s, appId, ops[0]).state, appId, ops[1..])
  }

  /** The request id the engine hands out in `op`, if `op` is a start that gets one. */
  function IssuedBy(s: State, appId: string, op: Operation): set<RequestId>
  {
    match op
    case StartReg(u, _, begin) =>
      (match begin(appId, DevicesOf(s, u))
       case RegistrationChallenge(request) => {request.requestId}
       case RegistrationStartRejected => {})
    case StartAuth(u, _, begin) =>
      (match begin(appId, DevicesOf(s, u))
       case Challenge(request) => {request.requestId}
       case _ => {})
    case _ => {}
  }

  /** Every request id the engine hands out along the run. */
  function Issued(s: State, appId: string, ops: seq<Operation>): set<RequestId>
    decreases |ops|
  {
    if ops == [] then {}
    else IssuedBy(s, appId, ops[0]) + Issued(Apply(s, appId, ops[0]).state, appId, ops[1..])
  }

  /** `op` is a finish that answers the challenge with request id `id`. */
  predicate Answers(op: Operation, id: RequestId)
  {
    || (op.FinishReg? && op.registerResponse.requestId == id)
    || (op.FinishAuth? && op.authenticateResponse.requestId == id)
  }

  /** As written neither registration check can refuse: both are stubs. */
  lemma RegistrationNeverRefused(username: Username, password: string)
    ensures RegistrationRefusal(AlreadyExists(username), PasswordIsInvalid(password), username) == None
  {
  }

  /** A finish consumes its request: after it, whichever way it ended, a second finish
      for the same request id, of either kind, fails with UnknownRequestId and changes
      nothing. */
  lemma SecondFinishFails(s: State, appId: string, first: Operation, second: Operation, id: RequestId)
    requires Answers(first, id) && Answers(second, id)
    ensures var after := Apply(s, appId, first).state;
      Apply(after, appId, second) == Step(after, Err(UnknownRequestId(id)))
  {
  }

  /** Each operation keeps every registered device and adds no pending request other
      than the one the engine issues in it. */
  lemma ApplyFrame(s: State, appId: string, op: Operation)
    ensures DevicesKept(s, Apply(s, appId, op).state)
    ensures Apply(s, appId, op).state.requests.Keys <= s.requests.Keys + IssuedBy(s, appId, op)
  {
  }

  /** No sequence of operations deletes a device: registrations are only ever added
      or replaced. */
  lemma {:induction false} RunKeepsDevices(s: State, appId: string, ops: seq<Operation>)
    ensures DevicesKept(s, Run(s, appId, ops))
    decreases |ops|
  {
    if ops != [] {
      var next := Apply(s, appId, ops[0]).state;
      ApplyFrame(s, appId, ops[0]);
      RunKeepsDevices(next, appId, ops[1..]);
    }
  }

  /** Every request pending after a run was pending before it or was issued by the
      engine during it: a finish cannot create a pending request. */
  lemma {:induction false} RunPendingWereIssued(s: State, appId: string, ops: seq<Operation>)
    ensures Run(s, appId, ops).requests.Keys <= s.requests.Keys + Issued(s, appId, ops)
    decreases |ops|
  {
    if ops != [] {
      var next := Apply(s, appId, ops[0]).state;
      ApplyFrame(s, appId, ops[0]);
      RunPendingWereIssued(next, appId, ops[1..]);
    }
  }

  /** Replay protection: a request id that is not pending (never issued, or already
      consumed) and that the engine does not issue again stays unanswerable, however
      many other operations come between. */
  lemma {:induction false} ReplayRejected(s: State, appId: string, ops: seq<Operation>, last: Operation, id: RequestId)
    requires id !in s.requests
    requires id !in Issued(s, appId, ops)
    requires Answers(last, id)
    ensures var t := Run(s, appId, ops);
      Apply(t, appId, last) == Step(t, Err(UnknownRequestId(id)))
  {
    RunPendingWereIssued(s, appId, ops);
  }

  /** Registering and then authenticating with the same device: the finish of each
      phase finds the challenge its start stored, the authentication challenge is built
      over the device just registered, and afterwards the user holds exactly one
      registration for that key handle, the one the authentication returned. Both
      challenges are consumed; nothing else changes. */
  lemma RegisterThenAuthenticate(
    s: State, appId: string, username: Username, password: string,
    startRegistration: (string, Devices) -> RegistrationStart,
    registerResponse: RegisterResponse,
    finishRegistration: (Json, RegisterResponse) -> RegistrationOutcome,
    startAuthentication: (string, Devices) -> AuthenticationStart,
    authenticateResponse: AuthenticateResponse,
    finishAuthentication: (Json, AuthenticateResponse, Devices) -> AuthenticationOutcome,
    registerRequest: RegisterRequestData, first: DeviceRegistration, updated: DeviceRegistration,
    challenge: AuthenticateRequestData)
    requires startRegistration(appId, DevicesOf(s, username)) == RegistrationChallenge(registerRequest)
    requires registerResponse.requestId == registerRequest.requestId
    requires finishRegistration(registerRequest.json, registerResponse) == Registered(first)
    requires startAuthentication(appId, DevicesOf(s, username)[first.keyHandle := first.json]) == Challenge(challenge)
    requires authenticateResponse.requestId == challenge.requestId
    requires finishAuthentication(challenge.json, authenticateResponse, DevicesOf(s, username)[first.keyHandle := first.json])
             == Verified(updated)
    requires updated.keyHandle == first.keyHandle
    ensures
      var s1 := StartRegistration(s, appId, username, password, startRegistration);
      var s2 := FinishRegistration(s1.state, registerResponse, username, finishRegistration);
      var s3 := StartAuthentication(s2.state, appId, username, password, startAuthentication);
      var s4 := FinishAuthentication(s3.state, authenticateResponse, username, finishAuthentication);
      && s2.result == Ok(first.text)
      && s4.result == Ok(updated.text)
      && Upserted(s, s4.state, username, first.keyHandle, updated.json)
      && s4.state.requests == s.requests - {registerResponse.requestId, challenge.requestId}
  {
  }

  /** A clone report while authenticating: the call fails with DeviceCompromised, the
      request is consumed, and the registry afterwards holds the registration the engine
      supplied for that key handle, not the one held before the attempt. */
  lemma CloneRecordsRegistration(s: State, response: AuthenticateResponse, username: Username,
                                 finishAuthentication: (Json, AuthenticateResponse, Devices) -> AuthenticationOutcome,
                                 reported: DeviceRegistration)
    requires response.requestId in s.requests
    requires finishAuthentication(s.requests[response.requestId], response, DevicesOf(s, username)) == Compromised(reported)
    ensures var o := FinishAuthentication(s, response, username, finishAuthentication);
      && o.result == Err(DeviceCompromised(reported.keyHandle))
      && response.requestId !in o.state.requests
      && reported.keyHandle in DevicesOf(o.state, username)
      && DevicesOf(o.state, username)[reported.keyHandle] == reported.json
  {
  }
}
