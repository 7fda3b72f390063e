/** The presence registry and the per-connection relay sessions.

    The process-wide registry maps a room id to its slot pair. Each live
    connection runs one session through the phases
      AwaitingRole -> Relaying(role, Checking <-> Waiting) -> Finished;
    every suspension point of the handler is one atomic step. The transport is
    reduced to connection ids, a set of transports that are gone (a send or a
    close on one of them fails), and a trace of what was sent, closed and
    rotated, in order.

    The whole state is a value `Net`; the step functions below say what each
    step does to it, and the methods of `Registry` perform the same steps on
    fields and promise `State() == Step(old(State()), ...)`. */
module Relay {
  import opened RoomDocs

  /** A connection handle: the identity `is` compares. */
  type ConnId = nat

  /** A relayed message, forwarded without being looked at. */
  type Payload = string

  datatype Slot = Slot(owner: Option<ConnId>, guest: Option<ConnId>)

  const EmptySlot := Slot(None, None)

  datatype Role = Owner | Guest

  datatype Stage = Checking | Waiting

  datatype Phase = AwaitingRole | Relaying(role: Role, stage: Stage) | Finished

  datatype Session = Session(room: RoomId, phase: Phase)

  /** What the server sends on a connection. */
  datatype Outbound =
    | Presence(ownerPresent: bool, guestPresent: bool)
    | System(reason: string)
    | Forward(payload: Payload)

  const RoomExpiredReason := "ROOM_EXPIRED"

  /** A successful send, a successful close, and a call of `rotate_join`. */
  datatype Event = Sent(to: ConnId, msg: Outbound) | Closed(conn: ConnId) | RotatedJoin(room: RoomId)

  /** The first message of a session: its `role` field (missing or not a
      string is `None`), or a receive that raised. */
  datatype Hello = RoleMessage(role: Option<string>) | HelloFailed

  /** One bounded wait for a message in the relay loop. */
  datatype Inbound = Timeout | Message(payload: Payload) | ReceiveFailed

  /** The outcome of one expiry check: keep going, force the expiry, or the
      comparison raised. */
  datatype Tick = Live | Expire | Fault

  datatype Net = Net(rooms: map<RoomId, Slot>, sessions: map<ConnId, Session>,
                     dead: set<ConnId>, trace: seq<Event>)

  // ---------------------------------------------------------------- invariant

  /** `c` is a relaying session of room `r` in role `role`. */
  ghost predicate Holds(n: Net, c: ConnId, r: RoomId, role: Role)
  {
    c in n.sessions && n.sessions[c].room == r
    && n.sessions[c].phase.Relaying? && n.sessions[c].phase.role == role
  }

  ghost predicate SlotHeld(n: Net, r: RoomId)
    requires r in n.rooms
  {
    (n.rooms[r].owner.Some? ==> Holds(n, n.rooms[r].owner.value, r, Owner))
    && (n.rooms[r].guest.Some? ==> Holds(n, n.rooms[r].guest.value, r, Guest))
  }

  /** Every session's room has an entry, and every filled slot is held by a
      relaying session of that room in that role. */
  ghost predicate Inv(n: Net)
  {
    (forall c | c in n.sessions :: n.sessions[c].room in n.rooms)
    && (forall r | r in n.rooms :: SlotHeld(n, r))
  }

  /** Under the invariant no connection fills both slots of a room, nor a
      slot in two rooms. */
  lemma InvSlotsDistinct(n: Net, r: RoomId, q: RoomId)
    requires Inv(n) && r in n.rooms && q in n.rooms
    ensures n.rooms[r].owner.Some? ==> n.rooms[r].owner != n.rooms[r].guest
    ensures r != q && n.rooms[r].owner.Some? ==> n.rooms[r].owner != n.rooms[q].owner && n.rooms[r].owner != n.rooms[q].guest
    ensures r != q && n.rooms[r].guest.Some? ==> n.rooms[r].guest != n.rooms[q].owner && n.rooms[r].guest != n.rooms[q].guest
  {
  }

  // ---------------------------------------------------------------- presence

  function PresenceOf(s: Slot): Outbound
  {
    Presence(s.owner.Some?, s.guest.Some?)
  }

  /** `room.values()` in insertion order. */
  function SlotValues(s: Slot): seq<Option<ConnId>>
  {
    [s.owner, s.guest]
  }

  function SendOne(target: Option<ConnId>, dead: set<ConnId>, m: Outbound): seq<Event>
  {
    if target.Some? && target.value !in dead then [Sent(target.value, m)] else []
  }

  /** The successful sends of `m` to each filled target in turn; a failed
      send is swallowed. */
  function SendEach(targets: seq<Option<ConnId>>, dead: set<ConnId>, m: Outbound): seq<Event>
  {
    if targets == [] then []
    else SendEach(targets[..|targets| - 1], dead, m) + SendOne(targets[|targets| - 1], dead, m)
  }

  /** Only `m` is sent, only to live filled targets, and each live target
      receives it once per occurrence among the targets. */
  lemma {:induction false} SendEachSpec(targets: seq<Option<ConnId>>, dead: set<ConnId>, m: Outbound)
    ensures forall e | e in SendEach(targets, dead, m) :: e.Sent? && e.msg == m && Some(e.to) in targets && e.to !in dead
    ensures forall c: ConnId :: multiset(SendEach(targets, dead, m))[Sent(c, m)]
                                == if c in dead then 0 else multiset(targets)[Some(c)]
  {
    if targets != [] {
      var init, last := targets[..|targets| - 1], targets[|targets| - 1];
      SendEachSpec(init, dead, m);
      assert targets == init + [last];
      assert multiset(targets) == multiset(init) + multiset{last};
      assert SendEach(targets, dead, m) == SendEach(init, dead, m) + SendOne(last, dead, m);
      forall e | e in SendEach(targets, dead, m)
        ensures e.Sent? && e.msg == m && Some(e.to) in targets && e.to !in dead
      {
        if e in SendEach(init, dead, m) {
          assert Some(e.to) in init;
        }
      }
    }
  }

  /** Over a slot's two values the sends are the owner's, then the guest's. */
  lemma SendEachSlot(s: Slot, dead: set<ConnId>, m: Outbound)
    ensures SendEach(SlotValues(s), dead, m) == SendOne(s.owner, dead, m) + SendOne(s.guest, dead, m)
  {
    assert SlotValues(s)[..1] == [s.owner];
    assert SendEach([s.owner], dead, m) == SendOne(s.owner, dead, m);
  }

  /** `broadcast_presence`: one presence snapshot to every live filled slot. */
  function Broadcast(n: Net, r: RoomId): (m: Net)
    ensures m.rooms == n.rooms && m.sessions == n.sessions && m.dead == n.dead
  {
    if r in n.rooms then n.(trace := n.trace + SendEach(SlotValues(n.rooms[r]), n.dead, PresenceOf(n.rooms[r])))
    else n
  }

  /** An unregistered room gets nothing; otherwise the trace grows by presence
      messages whose flags are exactly "that slot is filled", each live filled
      slot receiving exactly one, and the registry does not change. */
  lemma BroadcastSpec(n: Net, r: RoomId)
    ensures r !in n.rooms ==> Broadcast(n, r) == n
    ensures |n.trace| <= |Broadcast(n, r).trace| && Broadcast(n, r).trace[..|n.trace|] == n.trace
    ensures r in n.rooms ==>
              var s, sent := n.rooms[r], Broadcast(n, r).trace[|n.trace|..];
              && (forall e | e in sent :: e.Sent? && e.to !in n.dead && (Some(e.to) == s.owner || Some(e.to) == s.guest)
                                          && e.msg == Presence(s.owner.Some?, s.guest.Some?))
              && (forall c: ConnId :: multiset(sent)[Sent(c, Presence(s.owner.Some?, s.guest.Some?))]
                                      == if c in n.dead then 0
                                         else (if s.owner == Some(c) then 1 else 0) + (if s.guest == Some(c) then 1 else 0))
  {
    if r in n.rooms {
      var s := n.rooms[r];
      SendEachSpec(SlotValues(s), n.dead, PresenceOf(s));
      assert Broadcast(n, r).trace[|n.trace|..] == SendEach(SlotValues(s), n.dead, PresenceOf(s));
      forall c: ConnId
        ensures multiset(SlotValues(s))[Some(c)] == (if s.owner == Some(c) then 1 else 0) + (if s.guest == Some(c) then 1 else 0)
      {
        assert SlotValues(s) == [s.owner] + [s.guest];
      }
    }
  }

  // ---------------------------------------------------------- transport steps

  /** `close()`: fails (and is ignored) on a transport that is already gone. */
  function CloseConn(n: Net, c: ConnId): Net
  {
    if c in n.dead then n else n.(dead := n.dead + {c}, trace := n.trace + [Closed(c)])
  }

  /** The client side hangs up. */
  function Hangup(n: Net, c: ConnId): (m: Net)
    ensures Inv(n) ==> Inv(m)
    ensures c in m.dead && m.rooms == n.rooms && m.sessions == n.sessions && m.trace == n.trace
  {
    n.(dead := n.dead + {c})
  }

  // ------------------------------------------------------------ forced expiry

  /** `force_expire_room`: evict and notify the guest, clear its slot, and call
      `rotate_join` on both the registered and the unregistered path. */
  function ForceExpire(n: Net, r: RoomId): (m: Net)
    ensures m.sessions == n.sessions && m.rooms.Keys == n.rooms.Keys
    ensures forall q | q in n.rooms && q != r :: m.rooms[q] == n.rooms[q]
    ensures r in n.rooms ==> m.rooms[r].guest.None? && m.rooms[r].owner == n.rooms[r].owner
    ensures |n.trace| < |m.trace| && m.trace[..|n.trace|] == n.trace
    ensures var g := if r in n.rooms then n.rooms[r].guest else None;
            m.trace[|n.trace|..] == (if g.Some? && g.value !in n.dead
                                     then [Sent(g.value, System(RoomExpiredReason)), Closed(g.value), RotatedJoin(r)]
                                     else [RotatedJoin(r)])
    ensures var g := if r in n.rooms then n.rooms[r].guest else None;
            m.dead == if g.Some? && g.value !in n.dead then n.dead + {g.value} else n.dead
    ensures Inv(n) ==> Inv(m)
  {
    if r !in n.rooms then n.(trace := n.trace + [RotatedJoin(r)])
    else
      var s := n.rooms[r];
      if s.guest.None? then n.(trace := n.trace + [RotatedJoin(r)])
      else
        var g := s.guest.value;
        // the close is skipped when the send raised
        var n1 := if g in n.dead then n else CloseConn(n.(trace := n.trace + [Sent(g, System(RoomExpiredReason))]), g);
        n1.(rooms := n1.rooms[r := s.(guest := None)], trace := n1.trace + [RotatedJoin(r)])
  }

  // ------------------------------------------------------------------ cleanup

  /** The identity-guarded detach of the `finally` block. */
  function Detach(s: Slot, c: ConnId): (t: Slot)
    ensures t.owner != Some(c) && t.guest != Some(c)
    ensures s.owner != Some(c) ==> t.owner == s.owner
    ensures s.guest != Some(c) ==> t.guest == s.guest
    ensures t.owner.Some? ==> t.owner == s.owner
    ensures t.guest.Some? ==> t.guest == s.guest
  {
    Slot(if s.owner == Some(c) then None else s.owner,
         if s.guest == Some(c) then None else s.guest)
  }

  /** The `finally` block: detach this connection only, broadcast, close.
      (A missing entry raises inside the `try` and skips the broadcast.) */
  function Cleanup(n: Net, c: ConnId): (m: Net)
    requires c in n.sessions
    ensures m.rooms.Keys == n.rooms.Keys
    ensures forall q | q in n.rooms && q != n.sessions[c].room :: m.rooms[q] == n.rooms[q]
    ensures n.sessions[c].room in n.rooms ==>
              m.rooms[n.sessions[c].room] == Detach(n.rooms[n.sessions[c].room], c)
    ensures m.sessions == n.sessions[c := Session(n.sessions[c].room, Finished)]
    ensures m.dead == n.dead + {c} && |n.trace| <= |m.trace| && m.trace[..|n.trace|] == n.trace
    ensures var r := n.sessions[c].room;
            r in n.rooms ==>
              var d := Detach(n.rooms[r], c);
              m.trace == n.trace + SendEach(SlotValues(d), n.dead, PresenceOf(d)) + (if c in n.dead then [] else [Closed(c)])
    ensures n.sessions[c].room !in n.rooms ==> m.trace == n.trace + (if c in n.dead then [] else [Closed(c)])
    ensures Inv(n) ==> Inv(m)
  {
    var r := n.sessions[c].room;
    var n1 := n.(sessions := n.sessions[c := Session(r, Finished)]);
    var n2 := if r in n1.rooms then Broadcast(n1.(rooms := n1.rooms[r := Detach(n1.rooms[r], c)]), r) else n1;
    CloseConn(n2, c)
  }

  /** The `finally` block never calls `rotate_join`. */
  lemma CleanupRotatesNothing(n: Net, c: ConnId)
    requires c in n.sessions
    ensures forall e | e in Cleanup(n, c).trace[|n.trace|..] :: !e.RotatedJoin?
  {
    var r := n.sessions[c].room;
    if r in n.rooms {
      var d := Detach(n.rooms[r], c);
      SendEachSpec(SlotValues(d), n.dead, PresenceOf(d));
      assert Cleanup(n, c).trace[|n.trace|..] == SendEach(SlotValues(d), n.dead, PresenceOf(d)) + (if c in n.dead then [] else [Closed(c)]);
    }
  }

  /** Cleanup of a session that no longer holds a slot changes no slot. */
  lemma StaleCleanupKeepsSlots(n: Net, c: ConnId)
    requires c in n.sessions && n.sessions[c].room in n.rooms
    requires n.rooms[n.sessions[c].room].owner != Some(c) && n.rooms[n.sessions[c].room].guest != Some(c)
    ensures Cleanup(n, c).rooms == n.rooms
  {
  }

  // -------------------------------------------------------- session lifecycle

  /** `accept()` and the lazy slot creation. */
  function Connect(n: Net, c: ConnId, r: RoomId): (m: Net)
    requires c !in n.sessions
    ensures r in n.rooms ==> m.rooms == n.rooms
    ensures r !in n.rooms ==> m.rooms == n.rooms[r := EmptySlot]
    ensures m.sessions == n.sessions[c := Session(r, AwaitingRole)] && m.dead == n.dead && m.trace == n.trace
    ensures Inv(n) ==> Inv(m)
  {
    n.(rooms := if r in n.rooms then n.rooms else n.rooms[r := EmptySlot],
       sessions := n.sessions[c := Session(r, AwaitingRole)])
  }

  function ParseRole(role: Option<string>): (r: Option<Role>)
    ensures r == Some(Owner) <==> role == Some("owner")
    ensures r == Some(Guest) <==> role == Some("guest")
  {
    if role == Some("owner") then Some(Owner)
    else if role == Some("guest") then Some(Guest)
    else None
  }

  /** The first-message role handshake. A rejected newcomer is closed and the
      `finally` block still runs (`return` inside `try`). */
  function Handshake(n: Net, c: ConnId, hello: Hello): (m: Net)
    requires c in n.sessions && n.sessions[c].phase == AwaitingRole && n.sessions[c].room in n.rooms
    ensures m.rooms.Keys == n.rooms.Keys
    ensures Inv(n) ==> Inv(m)
  {
    var r := n.sessions[c].room;
    if c in n.dead || hello.HelloFailed? then Cleanup(n, c)
    else
      var s := n.rooms[r];
      match ParseRole(hello.role)
      case Some(Owner) =>
        Broadcast(n.(rooms := n.rooms[r := s.(owner := Some(c))],
                     sessions := n.sessions[c := Session(r, Relaying(Owner, Checking))]), r)
      case Some(Guest) =>
        if s.guest.Some? then Cleanup(CloseConn(n, c), c)
        else Broadcast(n.(rooms := n.rooms[r := s.(guest := Some(c))],
                          sessions := n.sessions[c := Session(r, Relaying(Guest, Checking))]), r)
      case None => Cleanup(CloseConn(n, c), c)
  }

  /** An owner handshake takes the owner slot with no check, leaving the
      guest slot as it was. */
  lemma OwnerTakesSlot(n: Net, c: ConnId)
    requires c in n.sessions && n.sessions[c].phase == AwaitingRole && n.sessions[c].room in n.rooms
    requires c !in n.dead
    ensures var r, m := n.sessions[c].room, Handshake(n, c, RoleMessage(Some("owner")));
            var s := n.rooms[r].(owner := Some(c));
            && m.rooms == n.rooms[r := s]
            && m.sessions == n.sessions[c := Session(r, Relaying(Owner, Checking))]
            && m.dead == n.dead
            && m.trace == n.trace + SendEach(SlotValues(s), n.dead, PresenceOf(s))
  {
  }

  /** A guest handshake against a free guest slot takes that slot, tells
      both slots about it and starts the relay loop. */
  lemma GuestTakesFreeSlot(n: Net, c: ConnId)
    requires c in n.sessions && n.sessions[c].phase == AwaitingRole && n.sessions[c].room in n.rooms
    requires c !in n.dead && n.rooms[n.sessions[c].room].guest.None?
    ensures var r, m := n.sessions[c].room, Handshake(n, c, RoleMessage(Some("guest")));
            var s := n.rooms[r].(guest := Some(c));
            && m.rooms == n.rooms[r := s]
            && m.sessions == n.sessions[c := Session(r, Relaying(Guest, Checking))]
            && m.dead == n.dead
            && m.trace == n.trace + SendEach(SlotValues(s), n.dead, PresenceOf(s))
  {
  }

  /** A guest handshake against a filled guest slot closes the newcomer and,
      through the `finally` block too, changes no slot. */
  lemma GuestRejectedKeepsSlots(n: Net, c: ConnId)
    requires Inv(n)
    requires c in n.sessions && n.sessions[c].phase == AwaitingRole && c !in n.dead
    requires n.sessions[c].room in n.rooms && n.rooms[n.sessions[c].room].guest.Some?
    ensures var m := Handshake(n, c, RoleMessage(Some("guest")));
            && m.rooms == n.rooms
            && m.sessions[c].phase == Finished
            && |m.trace| > |n.trace| && m.trace[|n.trace|] == Closed(c)
  {
  }

  /** A role other than "owner" or "guest" changes no slot. */
  lemma UnknownRoleKeepsSlots(n: Net, c: ConnId, role: Option<string>)
    requires Inv(n)
    requires c in n.sessions && n.sessions[c].phase == AwaitingRole && n.sessions[c].room in n.rooms
    requires role != Some("owner") && role != Some("guest")
    ensures Handshake(n, c, RoleMessage(role)).rooms == n.rooms
    ensures Handshake(n, c, RoleMessage(role)).sessions[c].phase == Finished
  {
  }

  /** A superseded owner's cleanup leaves the newer owner in place. */
  lemma SupersededOwnerCleanup(n: Net, old1: ConnId, new1: ConnId)
    requires Inv(n)
    requires new1 in n.sessions && n.sessions[new1].phase == AwaitingRole && new1 !in n.dead
    requires n.sessions[new1].room in n.rooms
    requires Holds(n, old1, n.sessions[new1].room, Owner)
    ensures var r, m := n.sessions[new1].room, Handshake(n, new1, RoleMessage(Some("owner")));
            && old1 in m.sessions
            && Cleanup(m, old1).rooms[r].owner == Some(new1)
  {
  }

  // --------------------------------------------------------------- relay loop

  /** The loop's expiry check: a missing room or join, or `expires_at <= now`,
      expires; a join without `expires_at` makes the comparison raise. */
  function ExpiryTick(room: Option<RoomDoc>, now: int): (t: Tick)
    ensures t == Live <==>
              room.Some? && JoinPresent(room.value.join) && room.value.join.value.expiresAt.Some?
              && now < room.value.join.value.expiresAt.value
    ensures t == Fault <==>
              room.Some? && JoinPresent(room.value.join) && room.value.join.value.expiresAt.None?
  {
    if room.None? || !JoinPresent(room.value.join) then Expire
    else if room.value.join.value.expiresAt.None? then Fault
    else if room.value.join.value.expiresAt.value <= now then Expire
    else Live
  }

  /** One expiry check of a relaying session against the store's current
      document for its room. */
  function ExpiryStep(n: Net, c: ConnId, store: map<RoomId, RoomDoc>, now: int): (m: Net)
    requires c in n.sessions && n.sessions[c].phase.Relaying? && n.sessions[c].phase.stage == Checking
    ensures m.rooms.Keys == n.rooms.Keys
    ensures Inv(n) ==> Inv(m)
  {
    var r, role := n.sessions[c].room, n.sessions[c].phase.role;
    match ExpiryTick(Lookup(store, r), now)
    case Live => n.(sessions := n.sessions[c := Session(r, Relaying(role, Waiting))])
    case Expire => Cleanup(ForceExpire(n, r), c)
    case Fault => Cleanup(n, c)
  }

  /** A live room lets the loop go on and changes nothing else; an expired one
      forces the expiry (one `rotate_join`, guest slot cleared) and ends the
      session; a faulting check ends the session without `rotate_join`. */
  lemma ExpiryStepSpec(n: Net, c: ConnId, store: map<RoomId, RoomDoc>, now: int)
    requires c in n.sessions && n.sessions[c].phase.Relaying? && n.sessions[c].phase.stage == Checking
    ensures var r, m, t := n.sessions[c].room, ExpiryStep(n, c, store, now), ExpiryTick(Lookup(store, n.sessions[c].room), now);
            && (t == Live ==> m == n.(sessions := n.sessions[c := Session(r, n.sessions[c].phase.(stage := Waiting))]))
            && (t != Live ==> m.sessions[c].phase == Finished)
            && (t == Expire ==> RotatedJoin(r) in m.trace[|n.trace|..])
            && (t == Expire && r in n.rooms ==> m.rooms[r].guest.None? && m.rooms[r].owner == Detach(n.rooms[r], c).owner)
            && (t == Fault ==> m.rooms == (if r in n.rooms then n.rooms[r := Detach(n.rooms[r], c)] else n.rooms))
            && (t == Fault ==> forall e | e in m.trace[|n.trace|..] :: !e.RotatedJoin?)
  {
    var r := n.sessions[c].room;
    var t := ExpiryTick(Lookup(store, r), now);
    if t == Expire {
      var f := ForceExpire(n, r);
      var m := Cleanup(f, c);
      assert f.trace[|n.trace|..][|f.trace| - |n.trace| - 1] == RotatedJoin(r);
      assert m.trace[..|f.trace|] == f.trace;
      assert m.trace[|n.trace|..][|f.trace| - |n.trace| - 1] == RotatedJoin(r);
    } else if t == Fault {
      var m := Cleanup(n, c);
      if r in n.rooms {
        assert m.rooms == n.rooms[r := Detach(n.rooms[r], c)];
      }
      CleanupRotatesNothing(n, c);
    }
  }

  /** The slot a role forwards to. */
  function Peer(s: Slot, role: Role): Option<ConnId>
  {
    if role == Owner then s.guest else s.owner
  }

  /** One bounded wait in the relay loop and the forwarding of what arrived.
      A failed forward raises and ends the sender's session. */
  function RelayStep(n: Net, c: ConnId, input: Inbound): (m: Net)
    requires c in n.sessions && n.sessions[c].phase.Relaying? && n.sessions[c].phase.stage == Waiting
    requires n.sessions[c].room in n.rooms
    ensures m.rooms.Keys == n.rooms.Keys
    ensures Inv(n) ==> Inv(m)
  {
    var r, role := n.sessions[c].room, n.sessions[c].phase.role;
    var next := n.(sessions := n.sessions[c := Session(r, Relaying(role, Checking))]);
    if c in n.dead || input.ReceiveFailed? then Cleanup(n, c)
    else if input.Timeout? then next
    else match Peer(n.rooms[r], role)
      case None => next
      case Some(p) =>
        if p in n.dead then Cleanup(n, c)
        else next.(trace := n.trace + [Sent(p, Forward(input.payload))])
  }

  /** A message from the owner goes verbatim to the guest slot, and one from
      the guest to the owner slot, exactly when that slot is filled by a live
      connection; otherwise it is dropped. A forward that succeeds or is
      dropped changes no slot; a forward that fails ends the sender's session,
      whose cleanup clears the sender's own slot. */
  lemma RelayStepSpec(n: Net, c: ConnId, p: Payload, to: ConnId)
    requires Inv(n)
    requires c in n.sessions && n.sessions[c].phase.Relaying? && n.sessions[c].phase.stage == Waiting
    requires n.sessions[c].room in n.rooms && c !in n.dead
    ensures var r, role, m := n.sessions[c].room, n.sessions[c].phase.role, RelayStep(n, c, Message(p));
            var peer := if role == Owner then n.rooms[r].guest else n.rooms[r].owner;
            && (peer.None? ==> m == n.(sessions := n.sessions[c := Session(r, Relaying(role, Checking))]))
            && (peer.Some? && peer.value !in n.dead ==>
                  m.rooms == n.rooms && m.trace == n.trace + [Sent(peer.value, Forward(p))]
                  && m.sessions[c].phase == Relaying(role, Checking))
            && (peer.Some? && peer.value in n.dead ==>
                  m.sessions[c].phase == Finished && m.rooms == n.rooms[r := Detach(n.rooms[r], c)])
            && (Sent(to, Forward(p)) in m.trace[|n.trace|..] <==> peer == Some(to) && to !in n.dead)
  {
    var r := n.sessions[c].room;
    var m := RelayStep(n, c, Message(p));
    var peer := Peer(n.rooms[r], n.sessions[c].phase.role);
    if peer.Some? && peer.value in n.dead {
      assert m == Cleanup(n, c);
      assert SlotHeld(n, r);
      var s := n.rooms[r];
      var d := if s.owner == Some(c) then None else s.owner;
      forall e | e in m.trace[|n.trace|..] ensures !e.Sent? || !e.msg.Forward? {
        BroadcastSpec(n.(sessions := n.sessions[c := Session(r, Finished)], rooms := n.rooms[r := Detach(s, c)]), r);
      }
    }
  }

  /** A wait that times out only sends the loop back to its expiry check. */
  lemma TimeoutRechecks(n: Net, c: ConnId)
    requires c in n.sessions && n.sessions[c].phase.Relaying? && n.sessions[c].phase.stage == Waiting
    requires n.sessions[c].room in n.rooms && c !in n.dead
    ensures RelayStep(n, c, Timeout) == n.(sessions := n.sessions[c := Session(n.sessions[c].room, n.sessions[c].phase.(stage := Checking))])
  {
  }

  // ------------------------------------------------------ the stateful object

  /** The process-wide `ws_rooms` registry with the sessions that share it. */
  class Registry {
    var rooms: map<RoomId, Slot>
    var sessions: map<ConnId, Session>
    var dead: set<ConnId>
    var trace: seq<Event>

    function State(): Net
      reads this
    {
      Net(rooms, sessions, dead, trace)
    }

    ghost predicate Valid()
      reads this
    {
      Inv(State())
    }

    constructor ()
      ensures Valid() && State() == Net(map[], map[], {}, [])
    {
      rooms, sessions, dead, trace := map[], map[], {}, [];
    }

    /** `send_json`: raises on a transport that is gone. */
    method Send(c: ConnId, msg: Outbound) returns (ok: bool)
      modifies this
      ensures ok == (c !in old(dead))
      ensures State() == old(State()).(trace := old(trace) + if ok then [Sent(c, msg)] else [])
    {
      ok := c !in dead;
      if ok {
        trace := trace + [Sent(c, msg)];
      }
    }

    /** `close()`, its failure ignored. */
    method Close(c: ConnId)
      modifies this
      ensures State() == CloseConn(old(State()), c)
    {
      if c !in dead {
        dead := dead + {c};
        trace := trace + [Closed(c)];
      }
    }

    method BroadcastPresence(r: RoomId)
      modifies this
      ensures State() == Broadcast(old(State()), r)
    {
      if r !in rooms {
        return;
      }
      var slot := rooms[r];
      var payload := PresenceOf(slot);
      var values := SlotValues(slot);
      var i := 0;
      while i < |values|
        invariant 0 <= i <= |values|
        invariant rooms == old(rooms) && sessions == old(sessions) && dead == old(dead)
        invariant trace == old(trace) + SendEach(values[..i], dead, payload)
      {
        if values[i].Some? {
          var delivered := Send(values[i].value, payload);
        }
        assert values[..i + 1][..i] == values[..i];
        i := i + 1;
      }
      assert values[..|values|] == values;
    }

    method ForceExpireRoom(r: RoomId)
      requires Valid()
      modifies this
      ensures Valid() && State() == ForceExpire(old(State()), r)
    {
      if r !in rooms {
        trace := trace + [RotatedJoin(r)];
        return;
      }
      var guest := rooms[r].guest;
      if guest.Some? {
        var sent := Send(guest.value, System(RoomExpiredReason));
        if sent {
          Close(guest.value);
        }
        rooms := rooms[r := rooms[r].(guest := None)];
      }
      trace := trace + [RotatedJoin(r)];
    }

    /** The `finally` block of the handler. */
    method CleanUpSession(c: ConnId)
      requires c in sessions
      modifies this
      ensures State() == Cleanup(old(State()), c)
    {
      var r := sessions[c].room;
      sessions := sessions[c := Session(r, Finished)];
      if r in rooms {
        if rooms[r].owner == Some(c) {
          rooms := rooms[r := rooms[r].(owner := None)];
        }
        if rooms[r].guest == Some(c) {
          rooms := rooms[r := rooms[r].(guest := None)];
        }
        BroadcastPresence(r);
      }
      Close(c);
    }

    /** A new connection to room `r`. */
    method Accept(c: ConnId, r: RoomId)
      requires Valid() && c !in sessions
      modifies this
      ensures Valid() && State() == Connect(old(State()), c, r)
    {
      if r !in rooms {
        rooms := rooms[r := EmptySlot];
      }
      sessions := sessions[c := Session(r, AwaitingRole)];
    }

    method ReceiveRole(c: ConnId, hello: Hello)
      requires Valid() && c in sessions && sessions[c].phase == AwaitingRole
      modifies this
      ensures Valid() && State() == Handshake(old(State()), c, hello)
    {
      var r := sessions[c].room;
      if c in dead || hello.HelloFailed? {
        CleanUpSession(c);
        return;
      }
      var role := ParseRole(hello.role);
      if role == Some(Owner) {
        rooms := rooms[r := rooms[r].(owner := Some(c))];
        sessions := sessions[c := Session(r, Relaying(Owner, Checking))];
        BroadcastPresence(r);
      } else if role == Some(Guest) {
        if rooms[r].guest.Some? {
          Close(c);
          CleanUpSession(c);
          return;
        }
        rooms := rooms[r := rooms[r].(guest := Some(c))];
        sessions := sessions[c := Session(r, Relaying(Guest, Checking))];
        BroadcastPresence(r);
      } else {
        Close(c);
        CleanUpSession(c);
      }
    }

    method CheckExpiry(c: ConnId, store: map<RoomId, RoomDoc>, now: int)
      requires Valid() && c in sessions && sessions[c].phase.Relaying? && sessions[c].phase.stage == Checking
      modifies this
      ensures Valid() && State() == ExpiryStep(old(State()), c, store, now)
    {
      var r, role := sessions[c].room, sessions[c].phase.role;
      var tick := ExpiryTick(Lookup(store, r), now);
      if tick == Live {
        sessions := sessions[c := Session(r, Relaying(role, Waiting))];
      } else if tick == Expire {
        ForceExpireRoom(r);
        CleanUpSession(c);
      } else {
        CleanUpSession(c);
      }
    }

    method ReceiveMessage(c: ConnId, input: Inbound)
      requires Valid() && c in sessions && sessions[c].phase.Relaying? && sessions[c].phase.stage == Waiting
      modifies this
      ensures Valid() && State() == RelayStep(old(State()), c, input)
    {
      var r, role := sessions[c].room, sessions[c].phase.role;
      if c in dead || input.ReceiveFailed? {
        CleanUpSession(c);
        return;
      }
      if input.Timeout? {
        sessions := sessions[c := Session(r, Relaying(role, Checking))];
        return;
      }
      var peer := if role == Owner then rooms[r].guest else rooms[r].owner;
      if peer.Some? {
        var sent := Send(peer.value, Forward(input.payload));
        if !sent {
          CleanUpSession(c);
          return;
        }
      }
      sessions := sessions[c := Session(r, Relaying(role, Checking))];
    }

    /** The client of `c` hangs up. */
    method Disconnect(c: ConnId)
      requires Valid()
      modifies this
      ensures Valid() && State() == Hangup(old(State()), c)
    {
      dead := dead + {c};
    }
  }

  // ---------------------------------------------------------------- scenario

  /** A client of the registry: an owner and a guest connect to a live room,
      the owner's message reaches the guest verbatim, and when the owner hangs
      up the guest learns that the owner is gone. */
  method OwnerToGuestScenario(r: RoomId, doc: RoomDoc, now: int)
    requires JoinPresent(doc.join) && doc.join.value.expiresAt == Some(now + 60)
  {
    var reg := new Registry();
    ScenarioHandshakes(reg, r);
    ScenarioRelay(reg, r, doc, now);
    ScenarioHangup(reg, r, doc, now);
    assert reg.rooms[r] == Slot(None, Some(2));
    assert reg.trace[|reg.trace| - 1] == Sent(2, Presence(false, true));
  }

  const ScenarioTrace := [Sent(1, Presence(true, false)), Sent(1, Presence(true, true)), Sent(2, Presence(true, true))]

  /** Owner 1, then guest 2, hand-shake into room `r`. */
  method ScenarioHandshakes(reg: Registry, r: RoomId)
    requires reg.Valid() && reg.State() == Net(map[], map[], {}, [])
    modifies reg
    ensures reg.Valid()
    ensures reg.State() == Net(map[r := Slot(Some(1), Some(2))],
                               map[1 := Session(r, Relaying(Owner, Checking)), 2 := Session(r, Relaying(Guest, Checking))],
                               {}, ScenarioTrace)
  {
    reg.Accept(1, r);
    SendEachSlot(Slot(Some(1), None), {}, Presence(true, false));
    reg.ReceiveRole(1, RoleMessage(Some("owner")));
    assert reg.State() == Net(map[r := Slot(Some(1), None)], map[1 := Session(r, Relaying(Owner, Checking))],
                              {}, [Sent(1, Presence(true, false))]);
    reg.Accept(2, r);
    SendEachSlot(Slot(Some(1), Some(2)), {}, Presence(true, true));
    reg.ReceiveRole(2, RoleMessage(Some("guest")));
  }

  /** Both sessions pass the expiry check and the owner says "hi". */
  method ScenarioRelay(reg: Registry, r: RoomId, doc: RoomDoc, now: int)
    requires JoinPresent(doc.join) && doc.join.value.expiresAt == Some(now + 60)
    requires reg.Valid()
    requires reg.State() == Net(map[r := Slot(Some(1), Some(2))],
                                map[1 := Session(r, Relaying(Owner, Checking)), 2 := Session(r, Relaying(Guest, Checking))],
                                {}, ScenarioTrace)
    modifies reg
    ensures reg.Valid()
    ensures reg.State() == Net(map[r := Slot(Some(1), Some(2))],
                               map[1 := Session(r, Relaying(Owner, Checking)), 2 := Session(r, Relaying(Guest, Waiting))],
                               {}, ScenarioTrace + [Sent(2, Forward("hi"))])
  {
    var store := map[r := doc];
    assert Lookup(store, r) == Some(doc);
    assert ExpiryTick(Some(doc), now) == Live;
    reg.CheckExpiry(1, store, now);
    reg.CheckExpiry(2, store, now);
    reg.ReceiveMessage(1, Message("hi"));
  }

  /** The owner hangs up; its session ends on the next wait. */
  method ScenarioHangup(reg: Registry, r: RoomId, doc: RoomDoc, now: int)
    requires JoinPresent(doc.join) && doc.join.value.expiresAt == Some(now + 60)
    requires reg.Valid()
    requires reg.State() == Net(map[r := Slot(Some(1), Some(2))],
                                map[1 := Session(r, Relaying(Owner, Checking)), 2 := Session(r, Relaying(Guest, Waiting))],
                                {}, ScenarioTrace + [Sent(2, Forward("hi"))])
    modifies reg
    ensures reg.rooms == map[r := Slot(None, Some(2))]
    ensures reg.trace == ScenarioTrace + [Sent(2, Forward("hi")), Sent(2, Presence(false, true))]
  {
    var store := map[r := doc];
    assert Lookup(store, r) == Some(doc);
    reg.Disconnect(1);
    reg.CheckExpiry(1, store, now);
    assert reg.sessions[1] == Session(r, Relaying(Owner, Waiting)) && reg.dead == {1};
    assert Detach(Slot(Some(1), Some(2)), 1) == Slot(None, Some(2));
    SendEachSlot(Slot(None, Some(2)), {1}, Presence(false, true));
    reg.ReceiveMessage(1, Timeout);
  }
}
