# FiKey orchestrator, modelled in Dafny

This project models the core of FiKey, a two-factor layer over U2F hardware keys. The
core is the class `FiKeyAuth`. It runs two challenge/response protocols, device
registration and device authentication. Each protocol has a start and a finish, and each
step reads or writes two keyed stores around a call into the Yubico U2F engine:

- the **pending-request store** maps a request id to the challenge JSON stored by a start;
- the **device registry** maps a username to that user's devices, keyed by key handle.

Modules, by file:

- `errors.dfy` (`Errors`): the error vocabulary that replaces the Java exceptions, and `Result`/`Option`.
- `storage.dfy` (`Storage`): the storage content as a value (`State`). It has pure functions
  for the four storage calls the orchestrator makes (`PutRequest`, `TakeRequest`, `DevicesOf`,
  `UpsertDevice`). The class `DataStorage` holds the two maps as fields and updates them in
  place. Each of its methods is proved against the matching function.
- `u2f.dfy` (`U2F`): the values exchanged with the engine. The engine is not modelled. Each of
  its calls is a function parameter of the operation that makes it, and its possible outcomes
  are datatypes (`RegistrationChallenge`/`RegistrationStartRejected`,
  `Registered`/`RegistrationRejected`, `Challenge`/`Ineligible`/`AuthenticationStartRejected`,
  `Verified`/`Compromised`/`AuthenticationRejected`). Every engine call can therefore fail.
- `fikey_auth.dfy` (`FiKey`): each of the four operations, and the helper `getDeviceRegistration`
  (which writes to the storage), appears twice:
  - as a specification function `State -> Step` (the new storage content plus the result),
    whose `ensures` state what the operation promises;
  - as a method of the class `FiKeyAuth` that performs the same storage calls in the same
    order as the Java code, proved equal to its specification function.

  The helper `getAuthenticateRequestData` touches no storage. It appears once, as the function
  `GetAuthenticateRequestData`, which both `StartAuthentication` and `StartDeviceAuthentication` call.
- `properties.dfy` (`FiKeyProperties`): lemmas that relate several calls. They cover single
  consumption of challenges, replay rejection after any sequence of operations, that devices
  are never deleted, that pending requests come only from the engine, the
  register-then-authenticate round trip, and the clone path.

The stubs `userAlreadyExists` and `passwordIsInvalid` are the constant functions
`AlreadyExists` and `PasswordIsInvalid`. Both return `false`, as in the source.

Two behaviours of the code are kept as written:

- The code checks whether the user exists before it checks the password (lines 34-40).
- The code never refuses a duplicate request id. `addRequest` is modelled as a put that
  overwrites, so there is no `DuplicateRequestId` error.

## Model

| member | source | states |
|---|---|---|
| Storage.PutRequest | fikey-core/src/main/java/com/github/dkanellis/fikey/FiKeyAuth.java:44 | storing a challenge sets exactly that request id to that JSON; other pending ids and the registry are untouched |
| Storage.TakeRequest | fikey-core/src/main/java/com/github/dkanellis/fikey/FiKeyAuth.java:53 | succeeds exactly when the id is pending, returns the stored challenge and deletes it; an absent id fails with UnknownRequestId and writes nothing (assumed semantics of removeRequest) |
| Storage.UpsertDevice | fikey-core/src/main/java/com/github/dkanellis/fikey/FiKeyAuth.java:55 | sets exactly the entry (username, keyHandle), replacing any earlier one; other key handles, other users and pending requests are unchanged; no device is lost |
| Storage.DataStorage.GetDevicesFromUser | fikey-core/src/main/java/com/github/dkanellis/fikey/FiKeyAuth.java:42 | returns the user's device map, empty for a user never seen, without changing the storage |
| Storage.DataStorage.AddRequest | fikey-core/src/main/java/com/github/dkanellis/fikey/FiKeyAuth.java:65 | the storage's new content is PutRequest of the old |
| Storage.DataStorage.RemoveRequest | fikey-core/src/main/java/com/github/dkanellis/fikey/FiKeyAuth.java:81 | result and new content are those of TakeRequest on the old content |
| Storage.DataStorage.AddDeviceToUser | fikey-core/src/main/java/com/github/dkanellis/fikey/FiKeyAuth.java:85 | the storage's new content is UpsertDevice of the old |
| FiKey.AlreadyExists | fikey-core/src/main/java/com/github/dkanellis/fikey/FiKeyAuth.java:117-119 | the user-existence check is a stub: it reports no user as existing |
| FiKey.PasswordIsInvalid | fikey-core/src/main/java/com/github/dkanellis/fikey/FiKeyAuth.java:102-115 | the password check is a stub: it accepts every password (the character rule after it is commented out) |
| FiKey.RegistrationRefusal | fikey-core/src/main/java/com/github/dkanellis/fikey/FiKeyAuth.java:34-40 | refuses exactly when a check fails; an existing user is refused as UserAlreadyExists whatever the password; otherwise InvalidPassword names the disallowed characters |
| FiKey.StartRegistration | fikey-core/src/main/java/com/github/dkanellis/fikey/FiKeyAuth.java:33-47 | as written never refused with UserAlreadyExists or InvalidPassword; stores the engine's challenge JSON (built over the user's current devices) under its engine-issued id and returns that same JSON; other pending ids and the registry unchanged; if the engine throws, EngineRejected and nothing stored |
| FiKey.FinishRegistration | fikey-core/src/main/java/com/github/dkanellis/fikey/FiKeyAuth.java:50-58 | the response's id is no longer pending afterwards, whatever the outcome; an id not pending gives UnknownRequestId and no change; the engine gets exactly the consumed challenge; on success exactly (username, keyHandle) is upserted and the display form returned; on rejection no device is written |
| FiKey.GetAuthenticateRequestData | fikey-core/src/main/java/com/github/dkanellis/fikey/FiKeyAuth.java:70-76 | fails with NoEligibleDevices exactly when the engine reports no eligible device, with EngineRejected exactly when the engine throws otherwise, and returns Ok of the engine's challenge exactly when it issues one |
| FiKey.StartAuthentication | fikey-core/src/main/java/com/github/dkanellis/fikey/FiKeyAuth.java:61-68 | no eligible device: NoEligibleDevices and nothing stored; other engine failure: EngineRejected and nothing stored; otherwise the challenge's JSON form is stored under its id and its distinct display form is returned; registry unchanged |
| FiKey.CompleteAuthentication | fikey-core/src/main/java/com/github/dkanellis/fikey/FiKeyAuth.java:90-100 | the engine sees the user's current devices; verified: the registration is returned with no write; clone detected: the engine's registration is upserted and DeviceCompromised raised; other rejection: no write |
| FiKey.FinishAuthentication | fikey-core/src/main/java/com/github/dkanellis/fikey/FiKeyAuth.java:79-88 | the request is consumed whatever follows; unknown id gives UnknownRequestId and no change; verified and clone-detected both upsert exactly (username, keyHandle), the first returning the display form, the second failing with DeviceCompromised; other rejection writes no device |
| FiKey.FiKeyAuth.constructor | fikey-core/src/main/java/com/github/dkanellis/fikey/FiKeyAuth.java:25-30 | keeps the application id and the storage it is given; the disallowed characters are "&%" |
| FiKey.FiKeyAuth.StartDeviceRegistration | fikey-core/src/main/java/com/github/dkanellis/fikey/FiKeyAuth.java:33-47 | result and new storage content are those of StartRegistration |
| FiKey.FiKeyAuth.FinishDeviceRegistration | fikey-core/src/main/java/com/github/dkanellis/fikey/FiKeyAuth.java:50-58 | result and new storage content are those of FinishRegistration |
| FiKey.FiKeyAuth.StartDeviceAuthentication | fikey-core/src/main/java/com/github/dkanellis/fikey/FiKeyAuth.java:61-68 | result and new storage content are those of StartAuthentication |
| FiKey.FiKeyAuth.FinishDeviceAuthentication | fikey-core/src/main/java/com/github/dkanellis/fikey/FiKeyAuth.java:79-88 | result and new storage content are those of FinishAuthentication |
| FiKey.FiKeyAuth.GetDeviceRegistration | fikey-core/src/main/java/com/github/dkanellis/fikey/FiKeyAuth.java:90-100 | result and new storage content are those of CompleteAuthentication, including the write before the DeviceCompromised error |
| FiKeyProperties.RegistrationNeverRefused | fikey-core/src/main/java/com/github/dkanellis/fikey/FiKeyAuth.java:102-119 | with both checks stubbed, no registration start is ever refused |
| FiKeyProperties.SecondFinishFails | fikey-core/src/main/java/com/github/dkanellis/fikey/FiKeyAuth.java:51-54 | after any finish for a request id, even one the engine rejected, a second finish of either kind for it fails with UnknownRequestId and changes nothing |
| FiKeyProperties.ApplyFrame | fikey-core/src/main/java/com/github/dkanellis/fikey/FiKeyAuth.java:33-99 | every operation keeps all registered devices and adds no pending id other than the one the engine issues in it |
| FiKeyProperties.RunKeepsDevices | fikey-core/src/main/java/com/github/dkanellis/fikey/FiKeyAuth.java:33-99 | no sequence of operations deletes a device |
| FiKeyProperties.RunPendingWereIssued | fikey-core/src/main/java/com/github/dkanellis/fikey/FiKeyAuth.java:42-67 | every id pending after any sequence of operations was pending before or was issued by the engine during it |
| FiKeyProperties.ReplayRejected | fikey-core/src/main/java/com/github/dkanellis/fikey/FiKeyAuth.java:80-81 | an id that is not pending and is not issued again stays unanswerable after any sequence of operations: a finish for it fails with UnknownRequestId |
| FiKeyProperties.RegisterThenAuthenticate | fikey-core/src/main/java/com/github/dkanellis/fikey/FiKeyAuth.java:42-87 | start, finish, start and finish in turn: each finish finds its start's challenge, authentication runs over the device just registered, and the user ends with exactly one entry for that key handle, the authenticated registration; both challenges consumed; nothing else changes |
| FiKeyProperties.CloneRecordsRegistration | fikey-core/src/main/java/com/github/dkanellis/fikey/FiKeyAuth.java:90-99 | on clone detection the finish fails with DeviceCompromised, the request is consumed and the registry holds the engine-supplied post-clone registration |

## Left out

- U2F cryptography (signature and attestation checks, counter-rollback detection, challenge generation). The engine's four calls are function parameters of the operations. Only their outcomes are modelled.
- JSON: `toJson`, `toString` and `fromJson` on the engine's types. Payloads are opaque strings, and the stored form and the displayed form are separate fields. Responses arrive already parsed, so a malformed response string is not modelled.
- Engine failures: every exception any of the four engine calls throws, other than a clone report or "no eligible devices", becomes one `EngineRejected` error. The detail of each failure is not modelled.
- `DataStorage` internals: `storage/DataStorage.java` is not part of this model. The Dafny `DataStorage` keeps only the two maps, and three of its behaviours are assumptions:
  - `removeRequest` on an absent id fails with `UnknownRequestId` and writes nothing;
  - `addRequest` overwrites an existing entry;
  - `getDevicesFromUser` for a user it has never stored returns no devices;
  - `addDeviceToUser` replaces the registration already stored under the same key handle for that user.
- The process-wide `DataStorage.getInstance()`: the storage object is passed to the constructor instead.
- The commented-out password rule: it is dead code, so `PasswordIsInvalid` is the live stub that returns `false`.
- Exception messages: `UserAlreadyExistsException` and the Server's `UnknownUserException` only format text. Only their cause is kept, in `AuthError`.
- Concurrency and challenge expiry: the source implements neither. Atomic consumption under racing finishes and time-to-live are not modelled.
- The `Authenticator` interface that `FiKeyAuth` implements is not part of this model.
