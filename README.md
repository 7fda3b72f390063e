# Room relay: presence registry, relay sessions and join validation

This project models the core of a small real-time relay backend. An owner and
one guest connect to a room over a WebSocket. The server relays each message
to the other party. It re-checks the room's join credential against the room
store while a session runs, and it evicts the guest when the room expires.
The model also covers the join validator and the guest setup / verify HTTP
handlers that share the room document.

- `room_docs.dfy` (module `RoomDocs`) gives the shape of a room document as the code reads it. It has `join` with `key`, `expires_at` and `revoked`, and `guest` with `name` and `pin_hash`. Any field may be missing. It also gives the truthiness rules the code relies on: `not join` holds for a missing join and for an empty dictionary, and `not key` for a missing key and for `""`.
- `guest.dfy` (module `GuestRoutes`) holds `validate_join` as a pure function. `SetupOutcome` and `VerifyOutcome` say what the two handlers answer. The class `RoomStore` holds the store map, and its methods `SetupGuest` (writes the guest record) and `VerifyGuest` (read-only) perform the handlers step by step. Argon2 hashing is an opaque pair of function parameters, `hasher` and `verifier`.
- `websocket.dfy` (module `Relay`) holds the process-wide `ws_rooms` registry (room id to `{owner, guest}` slot). It also holds one session per connection: awaiting the role, then relaying (expiry check, then a bounded wait), then finished. Each suspension point of the handler is one atomic step. The whole state is a value `Net`: the slots, the sessions, the set of transports that are gone, and a trace of sends, closes and `rotate_join` calls in order. A pure step function per operation says what that step does to `Net`. The class `Registry` performs the same steps on its fields, and each method promises `State() == Step(old(State()), ...)`. Every step preserves the invariant `Inv`: each filled slot is held by a relaying session of that room in that role.
- `join_checks.dfy` (module `JoinChecks`) relates the relay's expiry check to `validate_join`.

Time is an integer `now` passed in. Connections are abstract ids compared by identity, like Python's `is`. A send or close on a transport that is gone fails, and every caller in the source ignores that failure, except the relay forward. There the failure ends the sender's session.

## Where the code and the design differ

In each case below the model follows the code.

- The relay loop's check (`app/websocket.py:88`) expires at `expires_at <= now` and ignores `revoked`. `validate_join` (`app/routes/guest.py:19,22`) denies only at `expires_at < now` and does deny a revoked join. `JoinChecks` proves the three inputs on which the two disagree and the agreement everywhere else.
- If a join has no `expires_at`, the loop's comparison `None <= datetime` raises. The session then ends through the `finally` block without `rotate_join` (`Tick.Fault`).
- Both handlers call `validate_join(room, …)` before the `if not room` check (`app/routes/guest.py:47-48,75-76`). A missing room therefore raises inside `validate_join` (a 500, `ServerError`), and "Room not found" is never answered. `SetupOutcome` and `VerifyOutcome` state both facts.
- The WebSocket handshake checks no join key at all. An owner handshake overwrites the owner slot with no occupancy check. Only a second guest is rejected.
- A rejected or unknown-role handshake returns inside `try`, so the `finally` block still runs. It re-closes the connection (the error is ignored) and broadcasts presence to the others.
- `force_expire_room` broadcasts no presence itself. When it runs from a relay loop, that session's cleanup broadcasts afterwards.
- A forward to a peer whose transport is gone raises, and it ends the sender's session. The message is not silently dropped.
- `rotate_join` is imported from `app/main.py`, but the file does not define it. The model treats it as an external operation and logs each call as `RotatedJoin(room)`.

## Model

| member | source | states |
|---|---|---|
| `GuestRoutes.ValidateJoin` | app/routes/guest.py:10-23 | Admit iff the join is present, the key is non-empty and equal to the stored key, `expires_at` is not strictly before `now` (missing counts as not expired), and the join is not revoked. Each denial reason holds exactly when every earlier check passed and its own failed. |
| `GuestRoutes.SetupOutcome` | app/routes/guest.py:44-67 | A missing room gives a server error. A denied join gives 403 with the validator's detail. An existing `pin_hash` gives 403 "Guest already exists". Ok iff admitted and no `pin_hash`. "Room not found" never occurs. |
| `GuestRoutes.VerifyOutcome` | app/routes/guest.py:72-87 | A server error iff the room is missing or an admitted, named guest has no `pin_hash` (the `KeyError`). A denied join gives 403. 404 "Guest not found" iff admitted and the name differs or there is no guest. 401 "Wrong PIN" iff the stored hash does not verify. Ok iff all checks pass. "Room not found" never occurs. |
| `GuestRoutes.SecondSetupFails` | app/routes/guest.py:51-65 | After a setup has written a non-empty hash, every later setup fails, whatever the key and time. |
| `GuestRoutes.SetupThenVerify` | app/routes/guest.py:44-87 | If a setup succeeds and the opaque hash and verify pair agree on the PIN, then verifying the same name and PIN on the written document succeeds. |
| `GuestRoutes.DeniedJoinSkipsPinCheck` | app/routes/guest.py:75-86 | When the join is denied, the verify answer does not depend on the PIN verifier. |
| `GuestRoutes.RoomStore.SetupGuest` | app/routes/guest.py:44-67 | Answers `SetupOutcome` of the stored room. On Ok the store is exactly the old store with that room's guest set to `{name, hash(pin)}`. On any other answer the store is unchanged. |
| `GuestRoutes.RoomStore.VerifyGuest` | app/routes/guest.py:72-87 | Answers `VerifyOutcome` of the stored room and writes nothing. |
| `Relay.InvSlotsDistinct` | app/websocket.py:55-80 | Under the registry invariant, no connection fills both slots of a room or slots in two rooms. |
| `Relay.SendEachSpec` | app/websocket.py:18-23 | Sending over the slot values sends only the payload, only to filled live targets, and once per occurrence of each live target. A failed send is skipped. |
| `Relay.Broadcast` | app/websocket.py:7-23 | A presence broadcast never changes the slots, the sessions or the transports. |
| `Relay.BroadcastSpec` | app/websocket.py:7-23 | An unregistered room sends nothing. Otherwise each live filled slot receives exactly one presence message, nobody else receives one, and its flags are exactly "owner slot filled" and "guest slot filled". |
| `Relay.ForceExpire` | app/websocket.py:25-44 | The guest slot becomes empty, the owner slot and all other rooms are unchanged, and sessions are untouched. A live attached guest receives `ROOM_EXPIRED`, then is closed, and the closed guest is the only transport that becomes gone. `rotate_join` is called exactly once, last, on both the registered and the unregistered path. The invariant is preserved. |
| `Relay.Detach` | app/websocket.py:113-118 | Cleanup clears a slot only if it holds this connection. It never clears or fills a slot held by anyone else. |
| `Relay.Cleanup` | app/websocket.py:111-128 | The room entry stays, and only this connection's slots in its own room are cleared. The session is finished, and exactly this transport becomes gone. The trace grows by the presence broadcast of the detached slot, then this connection's close if its transport was still there. With no room entry the broadcast is skipped. The invariant is preserved. |
| `Relay.CleanupRotatesNothing` | app/websocket.py:111-128 | The `finally` block never calls `rotate_join`. |
| `Relay.StaleCleanupKeepsSlots` | app/websocket.py:113-118 | The cleanup of a connection that holds no slot changes no slot. |
| `Relay.Connect` | app/websocket.py:52-59 | An empty slot entry is created only when the room id is absent, and an existing entry is never reset. The new session awaits its role, and the invariant is preserved. |
| `Relay.ParseRole` | app/websocket.py:64-80 | The role is Owner iff the field is "owner", and Guest iff it is "guest". Anything else is no role. |
| `Relay.Handshake` | app/websocket.py:61-80 | The handshake keeps the set of registered rooms and preserves the invariant on every path, rejection included. |
| `Relay.OwnerTakesSlot` | app/websocket.py:66-68 | An owner handshake sets the owner slot to the newcomer unconditionally, leaves the guest slot as it was, and enters the relay loop. Its only traffic is the presence broadcast of the new slot pair. |
| `Relay.GuestTakesFreeSlot` | app/websocket.py:70-76 | A guest handshake against a free guest slot fills it with the newcomer and enters the relay loop. Its only traffic is the presence broadcast of the new slot pair. |
| `Relay.GuestRejectedKeepsSlots` | app/websocket.py:70-120 | A guest handshake against a filled guest slot first closes the newcomer and ends its session. No slot changes, the existing guest included, even through the `finally` cleanup. |
| `Relay.UnknownRoleKeepsSlots` | app/websocket.py:78-120 | Any other role ends the session and changes no slot. |
| `Relay.SupersededOwnerCleanup` | app/websocket.py:66-118 | After a new owner takes the slot, the superseded owner's cleanup leaves the new owner in place. |
| `Relay.ExpiryTick` | app/websocket.py:85-88 | The loop goes on iff the room and a non-empty join exist and `now < expires_at`. The check faults iff the join has no `expires_at`. Otherwise the room expires. |
| `Relay.ExpiryStep` | app/websocket.py:83-90 | One expiry check keeps the registered rooms and preserves the invariant. |
| `Relay.ExpiryStepSpec` | app/websocket.py:85-90 | A live room moves the session on to the wait and changes nothing else. An expired room runs `rotate_join`, empties the guest slot and ends the session. A faulting check ends the session, detaching only this connection, and never calls `rotate_join`. |
| `Relay.RelayStep` | app/websocket.py:92-106 | One wait-and-forward step keeps the registered rooms and preserves the invariant. |
| `Relay.RelayStepSpec` | app/websocket.py:98-106 | A message from the owner is sent verbatim to the guest slot, and one from the guest to the owner slot, iff that slot holds a live connection. With no peer it is dropped and only the loop advances. A forward that succeeds or is dropped changes no slot. A failed forward ends the sender's session, and its cleanup clears the sender's own slot. |
| `Relay.TimeoutRechecks` | app/websocket.py:93-96 | A wait that times out changes nothing except sending the loop back to its expiry check. |
| `Relay.Registry.BroadcastPresence` | app/websocket.py:7-23 | The loop over the slot values performs exactly `Broadcast`. |
| `Relay.Registry.ForceExpireRoom` | app/websocket.py:25-44 | Performs exactly `ForceExpire` and keeps the registry valid. |
| `Relay.Registry.CleanUpSession` | app/websocket.py:111-128 | Performs exactly `Cleanup`. |
| `Relay.Registry.Accept` | app/websocket.py:52-59 | Performs exactly `Connect` and keeps the registry valid. |
| `Relay.Registry.ReceiveRole` | app/websocket.py:61-80 | Performs exactly `Handshake` and keeps the registry valid. |
| `Relay.Registry.CheckExpiry` | app/websocket.py:83-90 | Performs exactly `ExpiryStep` and keeps the registry valid. |
| `Relay.Registry.ReceiveMessage` | app/websocket.py:92-106 | Performs exactly `RelayStep` and keeps the registry valid. |
| `JoinChecks.BoundaryInstantDisagrees` | app/websocket.py:85-90 | At `expires_at == now` with a correct key, the relay expires the room while `validate_join` admits. |
| `JoinChecks.RevokedIgnoredByRelay` | app/routes/guest.py:22-23 | A revoked, unexpired join is denied as "Room expired" by `validate_join`, but the relay keeps going. |
| `JoinChecks.MissingExpiryDisagrees` | app/websocket.py:88 | A join without `expires_at` is admitted by `validate_join`, but makes the relay's check fault. |
| `JoinChecks.LiveAgreesWithAdmission` | app/routes/guest.py:10-23 | For a correct key and a join that is not revoked, the relay goes on iff `validate_join` admits and `expires_at` is present and not `now`. |

`Relay.OwnerToGuestScenario` is a client of `Registry` with no contract of its own. Owner and guest connect, the owner's "hi" reaches the guest unchanged, and when the owner hangs up the guest receives presence `{owner: false, guest: true}`.

## Left out

- asyncio scheduling and real interleavings: each suspension point is one atomic step, and a `wait_for` timeout is the `Timeout` input. A presence broadcast is atomic, so a slot that changes between its two sends is not modelled.
- The WebSocket transport (`accept`, `receive_json`, `send_json`, `close`) becomes a trace of events plus a set of transports that are gone. A receive that raises (including a non-dict handshake message) is one `Failed` input.
- MongoDB and `bson.ObjectId` are replaced by a map keyed by room id. An id that is not a valid ObjectId (which raises `InvalidId`) is not modelled, and neither are database errors from `find_one` or `update_one`. Setup's read and write are assumed not to interleave with other writes.
- The body of `rotate_join` is not in the model (app/main.py does not define it). Its calls are logged, and the room store the relay reads is passed in per check, so the rotation's effect on the key and expiry is not modelled.
- Argon2 `PasswordHasher` becomes the opaque `hasher` and `verifier` parameters. Verify errors other than a mismatch (such as an invalid hash) are not modelled.
- `datetime.utcnow()` becomes the integer `now`.
- A non-empty `join` dictionary whose fields are all missing or null (such as `{"key": null}`) is treated like `{}`. The code would treat it as truthy, so `validate_join` would deny it as "Invalid or expired link" instead of "Room is not joinable", and the relay's comparison would raise instead of forcing the expiry and calling `rotate_join`.
- Document fields of unexpected types are not modelled (a non-boolean truthy `revoked`, a non-string key). A stored `guest: null` is treated like a missing guest (in `setup_guest` it would raise).
- The administrative actions (create, delete, expire-now, set-expiry) are not part of the shown source.
- app/auth.py (a JWT wrapper over a foreign library), app/db.py (configuration) and app/main.py (a health route and an echo endpoint) are not part of this model.
- FastAPI routing, Pydantic payload models, HTTP plumbing and the `print` in the handler's `except` are not modelled.
- The requirement that accepted connection ids are fresh (`Accept` requires an id not seen before) stands in for the transport creating a new object per connection.
