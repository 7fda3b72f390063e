/** The shape of a persisted room document, as the relay and the guest routes
    read it from the room store, with the truthiness rules of the code that
    reads it (a missing field, an empty dictionary and an empty string are all
    "falsy"). */
module RoomDocs {

  datatype Option<+T> = None | Some(value: T)

  /** Room ids are the strings the routes receive; the ObjectId parsing of
      them is not part of this model. */
  type RoomId = string

  /** An Argon2 hash string, treated as opaque. */
  type Hash = string

  /** The `join` sub-document: every field may be missing. */
  datatype Join = Join(key: Option<string>, expiresAt: Option<int>, revoked: Option<bool>)

  /** The `guest` sub-document: every field may be missing. */
  datatype GuestRecord = GuestRecord(name: Option<string>, pinHash: Option<Hash>)

  datatype RoomDoc = RoomDoc(join: Option<Join>, guest: Option<GuestRecord>)

  /** `if not join` fails for a missing join and for an empty dictionary. */
  predicate JoinPresent(j: Option<Join>)
  {
    j.Some? && j.value != Join(None, None, None)
  }

  /** `join.get("revoked")` is truthy. */
  predicate Revoked(j: Join)
  {
    j.revoked == Some(true)
  }

  /** `room.get("guest", {}).get("pin_hash")` is truthy. */
  predicate HasPinHash(doc: RoomDoc)
  {
    doc.guest.Some? && doc.guest.value.pinHash.Some? && doc.guest.value.pinHash.value != ""
  }

  /** `find_one` by id on a map-based store. */
  function Lookup<K, V>(m: map<K, V>, k: K): (r: Option<V>)
    ensures r.Some? <==> k in m
    ensures r.Some? ==> r.value == m[k]
  {
    if k in m then Some(m[k]) else None
  }
}
