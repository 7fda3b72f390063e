/** The join validator and the guest setup / verify handlers of the guest
    routes. Hashing is an opaque pair: `hasher` stands for `PasswordHasher.hash`
    and `verifier` for `PasswordHasher.verify` (true unless it reports a
    mismatch). */
module GuestRoutes {
  import opened RoomDocs

  datatype DenyReason = NotJoinable | InvalidLink | RoomExpired

  /** The outcome of `validate_join`: it returns normally or raises a 403. */
  datatype Admission = Admit | Deny(reason: DenyReason)

  /** What a handler answers: a JSON `{ok: true}`, an HTTP error, or an
      uncaught exception (which the framework turns into a 500). */
  datatype Response = Ok | HttpError(status: int, detail: string) | ServerError

  const Forbidden := 403
  const Unauthorized := 401
  const NotFound := 404

  function DenyDetail(reason: DenyReason): string
  {
    match reason
    case NotJoinable => "Room is not joinable"
    case InvalidLink => "Invalid or expired link"
    case RoomExpired => "Room expired"
  }

  /** The presented key is non-empty and equal to the stored one. */
  predicate KeyAccepted(key: Option<string>, j: Join)
  {
    key.Some? && key.value != "" && j.key == key
  }

  /** `expires_at` is present and strictly before `now`. */
  predicate ExpiredBefore(j: Join, now: int)
  {
    j.expiresAt.Some? && j.expiresAt.value < now
  }

  /** The ordered admission predicate. Each denial holds exactly when every
      earlier check passed and its own check failed. */
  function ValidateJoin(room: RoomDoc, key: Option<string>, now: int): (a: Admission)
    ensures a == Admit <==>
              JoinPresent(room.join) && KeyAccepted(key, room.join.value)
              && !ExpiredBefore(room.join.value, now) && !Revoked(room.join.value)
    ensures a == Deny(NotJoinable) <==> !JoinPresent(room.join)
    ensures a == Deny(InvalidLink) <==> JoinPresent(room.join) && !KeyAccepted(key, room.join.value)
    ensures a == Deny(RoomExpired) <==>
              JoinPresent(room.join) && KeyAccepted(key, room.join.value)
              && (ExpiredBefore(room.join.value, now) || Revoked(room.join.value))
  {
    if !JoinPresent(room.join) then Deny(NotJoinable)
    else
      var join := room.join.value;
      if key.None? || key.value == "" || Some(key.value) != join.key then Deny(InvalidLink)
      else if join.expiresAt.Some? && join.expiresAt.value < now then Deny(RoomExpired)
      else if join.revoked == Some(true) then Deny(RoomExpired)
      else Admit
  }

  /** The document after `$set: {guest: {name, pin_hash}}`. */
  function WithGuest(doc: RoomDoc, name: string, pinHash: Hash): RoomDoc
  {
    doc.(guest := Some(GuestRecord(Some(name), Some(pinHash))))
  }

  /** The guest record exists and carries this name. (An empty record has no
      name, so `not guest` is subsumed by the name comparison.) */
  predicate GuestNamed(doc: RoomDoc, name: string)
  {
    doc.guest.Some? && doc.guest.value.name == Some(name)
  }

  /** The answer of `setup_guest` for the document `find_one` returned. */
  function SetupOutcome(room: Option<RoomDoc>, key: Option<string>, now: int): (r: Response)
    ensures room.None? ==> r == ServerError
    ensures r.Ok? <==> room.Some? && ValidateJoin(room.value, key, now) == Admit && !HasPinHash(room.value)
    ensures room.Some? && ValidateJoin(room.value, key, now).Deny? ==>
              r == HttpError(Forbidden, DenyDetail(ValidateJoin(room.value, key, now).reason))
    ensures room.Some? && ValidateJoin(room.value, key, now) == Admit && HasPinHash(room.value) ==>
              r == HttpError(Forbidden, "Guest already exists")
    ensures r != HttpError(NotFound, "Room not found")
  {
    // validate_join runs before the `if not room` check and fails on None
    if room.None? then ServerError
    else
      var admission := ValidateJoin(room.value, key, now);
      if admission.Deny? then HttpError(Forbidden, DenyDetail(admission.reason))
      else if HasPinHash(room.value) then HttpError(Forbidden, "Guest already exists")
      else Ok
  }

  /** The answer of `verify_guest` for the document `find_one` returned. */
  function VerifyOutcome(room: Option<RoomDoc>, name: string, pin: string, key: Option<string>, now: int,
                         verifier: (Hash, string) -> bool): (r: Response)
    ensures room.None? ==> r == ServerError
    ensures r.Ok? <==>
              room.Some? && ValidateJoin(room.value, key, now) == Admit && GuestNamed(room.value, name)
              && room.value.guest.value.pinHash.Some?
              && verifier(room.value.guest.value.pinHash.value, pin)
    ensures room.Some? && ValidateJoin(room.value, key, now).Deny? ==>
              r == HttpError(Forbidden, DenyDetail(ValidateJoin(room.value, key, now).reason))
    ensures r == HttpError(NotFound, "Guest not found") <==>
              room.Some? && ValidateJoin(room.value, key, now) == Admit && !GuestNamed(room.value, name)
    ensures r == HttpError(Unauthorized, "Wrong PIN") <==>
              room.Some? && ValidateJoin(room.value, key, now) == Admit && GuestNamed(room.value, name)
              && room.value.guest.value.pinHash.Some?
              && !verifier(room.value.guest.value.pinHash.value, pin)
    ensures r == ServerError <==>
              room.None?
              || (ValidateJoin(room.value, key, now) == Admit && GuestNamed(room.value, name)
                  && room.value.guest.value.pinHash.None?)
    ensures r != HttpError(NotFound, "Room not found")
  {
    if room.None? then ServerError
    else
      var admission := ValidateJoin(room.value, key, now);
      if admission.Deny? then HttpError(Forbidden, DenyDetail(admission.reason))
      else if !GuestNamed(room.value, name) then HttpError(NotFound, "Guest not found")
      // guest["pin_hash"] raises KeyError when the field is missing
      else if room.value.guest.value.pinHash.None? then ServerError
      else if !verifier(room.value.guest.value.pinHash.value, pin) then HttpError(Unauthorized, "Wrong PIN")
      else Ok
  }

  /** A successful setup makes every later setup fail, whatever key and time. */
  lemma SecondSetupFails(doc: RoomDoc, name: string, pinHash: Hash, key: Option<string>, now: int)
    requires pinHash != ""
    ensures SetupOutcome(Some(WithGuest(doc, name, pinHash)), key, now) != Ok
  {
  }

  /** Setting up a guest and then verifying it with the same name and PIN
      succeeds while the link stays valid, provided the opaque hash and verify
      functions agree on that PIN. */
  lemma SetupThenVerify(doc: RoomDoc, name: string, pin: string, key: Option<string>, now: int,
                        hasher: string -> Hash, verifier: (Hash, string) -> bool)
    requires SetupOutcome(Some(doc), key, now) == Ok
    requires verifier(hasher(pin), pin)
    ensures VerifyOutcome(Some(WithGuest(doc, name, hasher(pin))), name, pin, key, now, verifier) == Ok
  {
  }

  /** A denied join decides the answer before the PIN is checked: the
      verifier has no influence on it. */
  lemma DeniedJoinSkipsPinCheck(doc: RoomDoc, name: string, pin: string, key: Option<string>, now: int,
                                v1: (Hash, string) -> bool, v2: (Hash, string) -> bool)
    requires ValidateJoin(doc, key, now).Deny?
    ensures VerifyOutcome(Some(doc), name, pin, key, now, v1) == VerifyOutcome(Some(doc), name, pin, key, now, v2)
  {
  }

  /** The room store, a map from room id to document. */
  class RoomStore {
    var docs: map<RoomId, RoomDoc>

    constructor (initial: map<RoomId, RoomDoc>)
      ensures docs == initial
    {
      docs := initial;
    }

    /** `setup_guest`: writes the guest record once, and only when admitted. */
    method SetupGuest(roomId: RoomId, name: string, pin: string, key: Option<string>, now: int,
                      hasher: string -> Hash) returns (resp: Response)
      modifies this
      ensures resp == SetupOutcome(Lookup(old(docs), roomId), key, now)
      ensures resp.Ok? ==> docs == old(docs)[roomId := WithGuest(old(docs)[roomId], name, hasher(pin))]
      ensures !resp.Ok? ==> docs == old(docs)
    {
      var room := Lookup(docs, roomId);
      if room.None? {
        return ServerError;
      }
      var admission := ValidateJoin(room.value, key, now);
      if admission.Deny? {
        return HttpError(Forbidden, DenyDetail(admission.reason));
      }
      if HasPinHash(room.value) {
        return HttpError(Forbidden, "Guest already exists");
      }
      var pinHash := hasher(pin);
      docs := docs[roomId := WithGuest(room.value, name, pinHash)];
      return Ok;
    }

    /** `verify_guest`: a read-only sequence of checks. */
    method VerifyGuest(roomId: RoomId, name: string, pin: string, key: Option<string>, now: int,
                       verifier: (Hash, string) -> bool) returns (resp: Response)
      ensures resp == VerifyOutcome(Lookup(docs, roomId), name, pin, key, now, verifier)
    {
      var room := Lookup(docs, roomId);
      if room.None? {
        return ServerError;
      }
      var admission := ValidateJoin(room.value, key, now);
      if admission.Deny? {
        return HttpError(Forbidden, DenyDetail(admission.reason));
      }
      var guest := room.value.guest;
      if guest.None? || guest.value.name != Some(name) {
        return HttpError(NotFound, "Guest not found");
      }
      if guest.value.pinHash.None? {
        return ServerError;
      }
      if !verifier(guest.value.pinHash.value, pin) {
        return HttpError(Unauthorized, "Wrong PIN");
      }
      return Ok;
    }
  }
}
