/** The storage backend the orchestrator uses: a store of pending challenges keyed by
    request id, and a registry that maps each username to its devices, keyed by key
    handle. Only the key-value behaviour the orchestrator relies on is modelled. */
module Storage {
  import opened Errors

  type RequestId = string
  type Username = string
  type KeyHandle = string
  type Json = string

  /** One user's devices: key handle to serialised registration. */
  type Devices = map<KeyHandle, Json>

  /** The whole content of the storage at one moment. */
  datatype State = State(requests: map<RequestId, Json>, devices: map<Username, Devices>)

  /** The new storage content after an operation, and what the operation returned. */
  datatype Step<T> = Step(state: State, result: Result<T>)

  /** The devices of `username`; a user never seen has none. */
  function DevicesOf(s: State, username: Username): Devices
  {
    if username in s.devices then s.devices[username] else map[]
  }

  /** `t` holds every device `s` holds, for every user: nothing was deleted. */
  ghost predicate DevicesKept(s: State, t: State)
  {
    forall u :: DevicesOf(s, u).Keys <= DevicesOf(t, u).Keys
  }

  /** `t`'s registry is `s`'s with exactly the entry (username, keyHandle) set to
      `registration`: every other key handle and every other user as before. */
  ghost predicate Upserted(s: State, t: State, username: Username, keyHandle: KeyHandle, registration: Json)
  {
    && DevicesOf(t, username) == DevicesOf(s, username)[keyHandle := registration]
    && forall u :: u != username ==> DevicesOf(t, u) == DevicesOf(s, u)
  }

  /** Storing a challenge under a request id; an entry already there is overwritten. */
  function PutRequest(s: State, id: RequestId, challenge: Json): (t: State)
    ensures id in t.requests && t.requests[id] == challenge
    ensures t.requests.Keys == s.requests.Keys + {id}
    ensures forall other :: other in s.requests && other != id ==> t.requests[other] == s.requests[other]
    ensures t.devices == s.devices
  {
    s.(requests := s.requests[id := challenge])
  }

  /** Reading and deleting the challenge stored under `id`. An id that is not pending
      (never issued, or already consumed) fails and leaves the storage as it was. */
  function TakeRequest(s: State, id: RequestId): (r: Step<Json>)
    ensures r.result.Ok? <==> id in s.requests
    ensures r.result.Ok? ==> r.result.value == s.requests[id]
    ensures r.result.Err? ==> r.result.error == UnknownRequestId(id) && r.state == s
    ensures r.state.requests == s.requests - {id}
    ensures r.state.devices == s.devices
  {
    if id in s.requests then Step(s.(requests := s.requests - {id}), Ok(s.requests[id]))
    else Step(s, Err(UnknownRequestId(id)))
  }

  /** Inserting or replacing one user's registration for one key handle. */
  function UpsertDevice(s: State, username: Username, keyHandle: KeyHandle, registration: Json): (t: State)
    ensures Upserted(s, t, username, keyHandle, registration)
    ensures DevicesKept(s, t)
    ensures t.requests == s.requests
  {
    s.(devices := s.devices[username := DevicesOf(s, username)[keyHandle := registration]])
  }

  /** The storage object the orchestrator holds. Its two maps are updated in place by
      the four operations the orchestrator calls. */
  class DataStorage {
    var requests: map<RequestId, Json>
    var devices: map<Username, Devices>

    function Snapshot(): State
      reads this
    {
      State(requests, devices)
    }

    constructor (initial: State)
      ensures Snapshot() == initial
    {
      requests := initial.requests;
      devices := initial.devices;
    }

    method GetDevicesFromUser(username: Username) returns (d: Devices)
      ensures d == DevicesOf(Snapshot(), username)
    {
      if username in devices {
        d := devices[username];
      } else {
        d := map[];
      }
    }

    method AddRequest(id: RequestId, challenge: Json)
      modifies this
      ensures Snapshot() == PutRequest(old(Snapshot()), id, challenge)
    {
      requests := requests[id := challenge];
    }

    method RemoveRequest(id: RequestId) returns (r: Result<Json>)
      modifies this
      ensures Step(Snapshot(), r) == TakeRequest(old(Snapshot()), id)
    {
      if id in requests {
        r := Ok(requests[id]);
        requests := requests - {id};
      } else {
        r := Err(UnknownRequestId(id));
      }
    }

    method AddDeviceToUser(username: Username, keyHandle: KeyHandle, registration: Json)
      modifies this
      ensures Snapshot() == UpsertDevice(old(Snapshot()), username, keyHandle, registration)
    {
      var current := GetDevicesFromUser(username);
      devices := devices[username := current[keyHandle := registration]];
    }
  }
}
