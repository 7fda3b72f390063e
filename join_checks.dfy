/** How the relay loop's expiry check relates to `validate_join`. The two are
    written separately and differ: the loop expires at `expires_at <= now`
    and never looks at `revoked`, while `validate_join` denies only at
    `expires_at < now` and does deny a revoked join. */
module JoinChecks {
  import opened RoomDocs
  import G = GuestRoutes
  import R = Relay

  /** At the instant `expires_at == now` a connected session is expired while
      a new request with the same key is still admitted. */
  lemma BoundaryInstantDisagrees(doc: RoomDoc, key: Option<string>, now: int)
    requires JoinPresent(doc.join) && G.KeyAccepted(key, doc.join.value) && !Revoked(doc.join.value)
    requires doc.join.value.expiresAt == Some(now)
    ensures G.ValidateJoin(doc, key, now) == G.Admit
    ensures R.ExpiryTick(Some(doc), now) == R.Expire
  {
  }

  /** A revoked but unexpired join is denied to new requests, yet keeps a
      connected session relaying. */
  lemma RevokedIgnoredByRelay(doc: RoomDoc, key: Option<string>, now: int)
    requires JoinPresent(doc.join) && G.KeyAccepted(key, doc.join.value) && Revoked(doc.join.value)
    requires doc.join.value.expiresAt.Some? && now < doc.join.value.expiresAt.value
    ensures G.ValidateJoin(doc, key, now) == G.Deny(G.RoomExpired)
    ensures R.ExpiryTick(Some(doc), now) == R.Live
  {
  }

  /** A join without `expires_at` is admitted by `validate_join`, while the
      loop's comparison raises and ends the session. */
  lemma MissingExpiryDisagrees(doc: RoomDoc, key: Option<string>, now: int)
    requires JoinPresent(doc.join) && G.KeyAccepted(key, doc.join.value) && !Revoked(doc.join.value)
    requires doc.join.value.expiresAt.None?
    ensures G.ValidateJoin(doc, key, now) == G.Admit
    ensures R.ExpiryTick(Some(doc), now) == R.Fault
  {
  }

  /** Away from those three cases the two agree: for a correct key and a
      join that is not revoked, the loop keeps going exactly when
      `validate_join` admits and `expires_at` is present and not `now`. */
  lemma LiveAgreesWithAdmission(doc: RoomDoc, key: Option<string>, now: int)
    requires doc.join.Some? && G.KeyAccepted(key, doc.join.value) && !Revoked(doc.join.value)
    ensures R.ExpiryTick(Some(doc), now) == R.Live <==>
              G.ValidateJoin(doc, key, now) == G.Admit
              && doc.join.value.expiresAt.Some? && doc.join.value.expiresAt.value != now
  {
  }
}
