/**
 The server's rooms, reconnect tokens and connections, one critical section per
 step. Handlers run concurrently, so their steps interleave freely; what one
 goroutine carries from one critical section to the next is part of the state.
 */
module Lobby {
  import opened Base
  import opened Text
  import opened Tracks
  import opened Playback
  import opened Rooms

  const MAX_ROOMS := 10_000

  /** A stored token's session object: its identity, and whether a reconnect holds it. */
  datatype Entry = Entry(session: Session, ref: SessionRef, claimed: bool)

  /** How far a reconnect has come: it holds the claim, found no room, or was refused. */
  datatype Phase = Holding | NoRoom | Refused

  /** A reconnect between its claim and its end. */
  datatype Attempt = Attempt(token: Token, session: Session, ref: SessionRef, phase: Phase)

  datatype State = State(
    conns: Conns,
    rooms: map<Ref, Room>,            // every room object, registered or not
    registry: map<Code, Ref>,         // Server.rooms
    sessions: map<Token, Entry>,      // Server.sessions
    attempts: map<ConnId, Attempt>,   // reconnects in flight, one per connection
    expiring: set<Session>,           // taken by cleanup, not yet expired
    closing: set<Ref>,                // rooms whose syncMu is held until closeRoom ran
    usedIds: set<UserId>,             // every user ID ever generated
    usedTokens: set<Token>,           // every token ever generated, and the empty string
    nextSession: SessionRef,
    consumed: set<SessionRef>,        // history: sessions turned back into members
    revoked: set<SessionRef>,         // history: sessions whose token was taken away
    clock: int)                       // the last reading of the playback clock, in milliseconds

  const Empty := State(map[], map[], map[], map[], map[], {}, {}, {}, {[]}, 0, {}, {}, 0)

  datatype Step =
    | Connect(c: ConnId, id: UserId, allow: bool)
    | Measure(c: ConnId, rtt: int)
    | Close(c: ConnId)
    | Create(c: ConnId, raw: Str, code: Code, ref: Ref, token: Token, nowMs: int)
    | Join(c: ConnId, raw: Str, code: Code)
    | RemovePending(c: ConnId)
    | Cancel(c: ConnId, id: UserId)
    | Approve(c: ConnId, key: UserId, token: Token)
    | RejectJoin(c: ConnId, key: UserId)
    | Kick(c: ConnId, u: UserId)
    | Transfer(c: ConnId, u: UserId)
    | Leave(c: ConnId, deputy: Option<ConnId>)
    | Detach(c: ConnId, now: Time, token: Token)
    | Claim(c: ConnId, token: Token, now: Time)
    | Lookup(c: ConnId)
    | DropToken(c: ConnId)
    | Consume(c: ConnId, ref: Ref)
    | Release(c: ConnId)
    | Take(now: Time)
    | Expire(x: Session, deputy: Option<ConnId>)
    | ExpireStale(x: Session)
    | Failover(ref: Ref, now: Time, deputy: Option<ConnId>)
    | Delete(ref: Ref)
    | CloseRoom(ref: Ref)
    | Suggest(c: ConnId, id: SuggestionId, track: Track)
    | ApproveSuggestion(c: ConnId, id: SuggestionId, nowMs: int)
    | RejectSuggestion(c: ConnId, id: SuggestionId, reason: Str)
    | Control(c: ConnId, m: Request, nowMs: int)

  /** The room object is the one registered under its code. */
  predicate Registered(s: State, ref: Ref)
  {
    ref in s.rooms && s.rooms[ref].code in s.registry && s.registry[s.rooms[ref].code] == ref
  }

  /** The connection's read pump is between messages. */
  predicate Ready(s: State, c: ConnId) { c in s.conns && c !in s.attempts }

  /** A reading of the playback clock, which does not go back. */
  predicate Tick(s: State, now: int) { s.clock <= now && Clock(now) }

  /** The room c acts in, if no task is closing it. */
  predicate InRoom(s: State, c: ConnId)
  {
    && c in s.conns && c !in s.attempts
    && s.conns[c].room.Some? && s.conns[c].room.value in s.rooms && s.conns[c].room.value !in s.closing
  }

  function RoomOf(s: State, c: ConnId): Room
    requires InRoom(s, c)
  {
    s.rooms[s.conns[c].room.value]
  }

  /** c is the connected host of its room. */
  predicate Hosting(s: State, c: ConnId)
  {
    InRoom(s, c) && RoomOf(s, c).host == Some(c) && RoomOf(s, c).hostAway.None?
  }

  function PutRoom(s: State, ref: Ref, r: Room): State { s.(rooms := s.rooms[ref := r]) }

  function PutConn(s: State, c: ConnId, k: Conn): State { s.(conns := s.conns[c := k]) }

  function ClearPending(conns: Conns, c: ConnId, ref: Ref): Conns
  {
    if c in conns && conns[c].pendingRoom == Some(ref) then conns[c := conns[c].(pendingRoom := None)] else conns
  }

  function ClearRoom(conns: Conns, c: ConnId, ref: Ref): Conns
  {
    if c in conns && conns[c].room == Some(ref) then conns[c := conns[c].(room := None)] else conns
  }

  function Refs(m: map<Token, Entry>, ts: set<Token>): set<SessionRef>
  {
    set t | t in ts && t in m :: m[t].ref
  }

  /** Deleting tokens, remembering which sessions they stood for. */
  function Revoke(s: State, ts: set<Token>): State
  {
    s.(sessions := s.sessions - ts, revoked := s.revoked + Refs(s.sessions, ts))
  }

  // ---- enabling conditions: freshness, one message at a time per connection, lock order ----

  /** d is the deputy among these clients. */
  ghost predicate Picked(s: State, clients: map<UserId, ConnId>, d: Option<ConnId>)
  {
    (d.Some? ==> d.value in s.conns) && Deputy(clients, s.conns, d)
  }

  ghost predicate Enabled(s: State, a: Step)
  {
    match a
    case Connect(c, id, _) => c !in s.conns && id !in s.usedIds
    case Measure(c, _) => c in s.conns
    case Close(c) => c in s.conns
    case Create(c, _, _, ref, token, now) => Ready(s, c) && ref !in s.rooms && token !in s.usedTokens && Tick(s, now)
    case Join(c, _, _) => Ready(s, c)
    case RemovePending(c) => c in s.conns && c !in s.attempts
    case Cancel(c, id) => c in s.conns && c !in s.attempts && id !in s.usedIds
    case Approve(c, _, token) => InRoom(s, c) && token !in s.usedTokens
    case RejectJoin(c, _) => InRoom(s, c)
    case Kick(c, _) => InRoom(s, c)
    case Transfer(c, _) => InRoom(s, c)
    case Leave(c, d) => InRoom(s, c) && Picked(s, RoomOf(s, c).clients - {s.conns[c].id}, d)
    case Detach(c, _, token) => InRoom(s, c) && token !in s.usedTokens
    case Claim(c, _, _) => Ready(s, c)
    case Lookup(c) => c in s.attempts && s.attempts[c].phase.Holding?
    case DropToken(c) => c in s.attempts && s.attempts[c].phase.NoRoom?
    case Consume(c, ref) => c in s.attempts && s.attempts[c].phase.Holding? && ref !in s.closing
                            && ref in s.rooms && s.rooms[ref].code == s.attempts[c].session.code
    case Release(c) => c in s.attempts
    case Take(_) => true
    case Expire(x, d) => x in s.expiring && x.code in s.registry && s.registry[x.code] in s.rooms
                         && s.registry[x.code] !in s.closing && Picked(s, s.rooms[s.registry[x.code]].clients, d)
    case ExpireStale(x) => x in s.expiring &&
                           !(x.code in s.registry && s.registry[x.code] in s.rooms && x.user in s.rooms[s.registry[x.code]].away)
    case Failover(ref, _, d) => ref in s.rooms && ref !in s.closing && Picked(s, s.rooms[ref].clients, d)
    case Delete(ref) => ref in s.rooms
    case CloseRoom(ref) => ref in s.closing && ref in s.rooms
    case Suggest(c, id, _) => c in s.conns && c !in s.attempts &&
                              forall ref :: ref in s.rooms ==> id !in s.rooms[ref].suggestions
    case ApproveSuggestion(c, _, now) => InRoom(s, c) && Tick(s, now)
    case RejectSuggestion(c, _, _) => c in s.conns && c !in s.attempts
    case Control(c, _, now) => InRoom(s, c) && Tick(s, now)
  }

  // ---- effects: a check that fails leaves the state as the source leaves it ----

  predicate CreateOk(s: State, c: ConnId, raw: Str, code: Code)
    requires c in s.conns
  {
    && s.conns[c].allow && s.conns[c].room.None? && s.conns[c].pendingRoom.None?
    && Sanitize(raw, MAX_USERNAME) != [] && code !in s.registry && |s.registry| < MAX_ROOMS
  }

  function Created(s: State, c: ConnId, name: Str, code: Code, ref: Ref, token: Token, now: int): State
    requires c in s.conns
  {
    s.(conns := s.conns[c := s.conns[c].(name := name, token := Some(token), room := Some(ref))],
       rooms := s.rooms[ref := Opened(code, c, s.conns[c].id, name, now)],
       registry := s.registry[code := ref],
       usedTokens := s.usedTokens + {token},
       clock := now)
  }

  function DoCreate(s: State, c: ConnId, raw: Str, code: Code, ref: Ref, token: Token, now: int): State
    requires c in s.conns
  {
    if CreateOk(s, c, raw, code) then Created(s, c, Sanitize(raw, MAX_USERNAME), code, ref, token, now) else s
  }

  /** The request names a room that is there, from someone with a usable name. */
  predicate JoinHeard(s: State, c: ConnId, raw: Str, code: Code)
    requires c in s.conns
  {
    && s.conns[c].room.None? && s.conns[c].pendingRoom.None? && Sanitize(raw, MAX_USERNAME) != []
    && code in s.registry && s.registry[code] in s.rooms
  }

  predicate JoinOk(r: Room, id: UserId)
  {
    && id !in r.clients && id !in r.pending && |r.clients| + |r.away| < MAX_MEMBERS
    && |r.pending| < MAX_PENDING && r.hostId.Some?
  }

  function Joined(s: State, c: ConnId, name: Str, ref: Ref): State
    requires c in s.conns && ref in s.rooms
  {
    var k := s.conns[c];
    PutRoom(PutConn(s, c, k.(name := name, pendingRoom := Some(ref))), ref,
            s.rooms[ref].(pending := s.rooms[ref].pending[k.id := c]))
  }

  function DoJoin(s: State, c: ConnId, raw: Str, code: Code): State
    requires c in s.conns
  {
    if !JoinHeard(s, c, raw, code) then s
    else if JoinOk(s.rooms[s.registry[code]], s.conns[c].id)
    then Joined(s, c, Sanitize(raw, MAX_USERNAME), s.registry[code])
    else PutConn(s, c, s.conns[c].(name := Sanitize(raw, MAX_USERNAME)))
  }

  /** c's application to ref ends: entry and pointer go together. */
  function Withdrawn(s: State, c: ConnId, ref: Ref, key: UserId): State
    requires ref in s.rooms
  {
    var r := s.rooms[ref];
    PutRoom(s.(conns := ClearPending(s.conns, c, ref)), ref, r.(pending := r.pending - {key}))
  }

  /** `removePendingJoin`. */
  function DoRemovePending(s: State, c: ConnId): State
    requires c in s.conns
  {
    var k := s.conns[c];
    if k.pendingRoom.None? then s
    else
      var p := if k.pendingRoom.value in s.rooms then s.rooms[k.pendingRoom.value].pending else map[];
      if k.id in p && p[k.id] == c then Withdrawn(s, c, k.pendingRoom.value, k.id)
      else PutConn(s, c, k.(pendingRoom := None))
  }

  /** `leaveRoom` outside a room: the request is cancelled and the ID renewed. */
  function DoCancel(s: State, c: ConnId, id: UserId): State
    requires c in s.conns
  {
    if s.conns[c].room.Some? then s
    else
      var t := DoRemovePending(s, c);
      t.(conns := t.conns[c := t.conns[c].(id := id)], usedIds := t.usedIds + {id})
  }

  /** The host answers an application that exists. */
  predicate Answers(s: State, c: ConnId, key: UserId)
    requires InRoom(s, c)
  {
    Hosting(s, c) && key in RoomOf(s, c).pending && RoomOf(s, c).pending[key] in s.conns
  }

  /** The applicant can still be admitted. */
  predicate Admissible(s: State, c: ConnId, key: UserId)
    requires InRoom(s, c) && Answers(s, c, key)
  {
    var r := RoomOf(s, c);
    var j := s.conns[r.pending[key]];
    !j.closed && j.room.None? && |r.clients| + |r.away| < MAX_MEMBERS
  }

  function Admit(s: State, j: ConnId, ref: Ref, key: UserId, token: Token): State
    requires j in s.conns && ref in s.rooms
  {
    var k := s.conns[j];
    s.(conns := s.conns[j := k.(room := Some(ref), token := Some(token),
                                pendingRoom := if k.pendingRoom == Some(ref) then None else k.pendingRoom)],
       rooms := s.rooms[ref := Admitted(s.rooms[ref], key, j, k.id, k.name)],
       usedTokens := s.usedTokens + {token})
  }

  function DoApprove(s: State, c: ConnId, key: UserId, token: Token): State
    requires InRoom(s, c)
  {
    var ref := s.conns[c].room.value;
    var r := s.rooms[ref];
    if !Answers(s, c, key) then s
    else if Admissible(s, c, key) then Admit(s, r.pending[key], ref, key, token)
    else if !s.conns[r.pending[key]].closed && |r.clients| + |r.away| >= MAX_MEMBERS then s
    else Withdrawn(s, r.pending[key], ref, key)
  }

  function DoRejectJoin(s: State, c: ConnId, key: UserId): State
    requires InRoom(s, c)
  {
    if !Answers(s, c, key) then s else Withdrawn(s, RoomOf(s, c).pending[key], s.conns[c].room.value, key)
  }

  /** The tokens of one member of one room. */
  function TokensOf(s: State, code: Code, u: UserId): set<Token>
  {
    set t | t in s.sessions && s.sessions[t].session.code == code && s.sessions[t].session.user == u
  }

  predicate KickOk(s: State, c: ConnId, u: UserId)
    requires InRoom(s, c)
  {
    Hosting(s, c) && u != s.conns[c].id && (u in RoomOf(s, c).clients || u in RoomOf(s, c).away)
  }

  function KickActive(s: State, ref: Ref, u: UserId): State
    requires ref in s.rooms && u in s.rooms[ref].clients
  {
    PutRoom(s.(conns := ClearRoom(s.conns, s.rooms[ref].clients[u], ref)), ref, Kicked(s.rooms[ref], u))
  }

  function KickAway(s: State, ref: Ref, u: UserId): State
    requires ref in s.rooms
  {
    Revoke(PutRoom(s, ref, Kicked(s.rooms[ref], u)), TokensOf(s, s.rooms[ref].code, u))
  }

  function DoKick(s: State, c: ConnId, u: UserId): State
    requires InRoom(s, c)
  {
    if !KickOk(s, c, u) then s
    else if u in RoomOf(s, c).clients then KickActive(s, s.conns[c].room.value, u)
    else KickAway(s, s.conns[c].room.value, u)
  }

  predicate TransferOk(s: State, c: ConnId, u: UserId)
    requires InRoom(s, c)
  {
    Hosting(s, c) && u != s.conns[c].id && u in RoomOf(s, c).clients && Eligible(s.conns, RoomOf(s, c).clients[u])
  }

  function DoTransfer(s: State, c: ConnId, u: UserId): State
    requires InRoom(s, c)
  {
    if !TransferOk(s, c, u) then s
    else PutRoom(s, s.conns[c].room.value, Transferred(RoomOf(s, c), s.conns, RoomOf(s, c).clients[u]))
  }

  /** c is the active member it takes itself for. */
  predicate Active(s: State, c: ConnId)
    requires InRoom(s, c)
  {
    s.conns[c].id in RoomOf(s, c).clients && RoomOf(s, c).clients[s.conns[c].id] == c
  }

  function LeftRoom(s: State, c: ConnId, ref: Ref, q: Room): State
  {
    PutRoom(s.(conns := ClearRoom(s.conns, c, ref), closing := if Dead(q) then s.closing + {ref} else s.closing), ref, q)
  }

  function DoLeave(s: State, c: ConnId, d: Option<ConnId>): State
    requires InRoom(s, c) && (d.Some? ==> d.value in s.conns)
  {
    var ref := s.conns[c].room.value;
    var k := s.conns[c];
    if !Active(s, c) then s.(conns := ClearRoom(s.conns, c, ref))
    else
      var t := LeftRoom(s, c, ref, Left(s.rooms[ref], s.conns, c, k.id, d));
      if k.token.Some? then Revoke(t, {k.token.value}) else t
  }

  /** `handleClientDisconnect`, after the connection was closed or, in
      `replaceLiveSession`, before. */
  function Detached(s: State, c: ConnId, ref: Ref, token: Token, now: Time): State
    requires c in s.conns && ref in s.rooms
  {
    var k := s.conns[c];
    var q := Disconnected(s.rooms[ref], c, k.id, k.name, now);
    s.(conns := s.conns[c := k.(token := Some(token), room := None, detached := true)],
       rooms := s.rooms[ref := q],
       sessions := s.sessions[token := Entry(q.away[k.id], s.nextSession, false)],
       usedTokens := s.usedTokens + {token},
       nextSession := s.nextSession + 1)
  }

  function DoDetach(s: State, c: ConnId, now: Time, spare: Token): State
    requires InRoom(s, c)
  {
    var k := s.conns[c];
    var token := if k.token.Some? then k.token.value else spare;
    if Active(s, c) then Detached(s, c, k.room.value, token, now)
    else s.(conns := s.conns[c := k.(token := Some(token), room := None)], usedTokens := s.usedTokens + {token})
  }

  /** The claim of `handleReconnect`: the token is stored, nobody holds it, it has
      not expired, and a host's seat goes to a connection that may host. */
  predicate ClaimOk(s: State, c: ConnId, t: Token, now: Time)
    requires c in s.conns
  {
    && s.conns[c].room.None? && s.conns[c].pendingRoom.None?
    && t in s.sessions && !s.sessions[t].claimed
    && now - s.sessions[t].session.at <= GRACE
    && (s.sessions[t].session.isHost ==> s.conns[c].allow)
  }

  function Claimed(s: State, c: ConnId, t: Token): State
    requires t in s.sessions
  {
    var e := s.sessions[t];
    s.(sessions := s.sessions[t := e.(claimed := true)], attempts := s.attempts[c := Attempt(t, e.session, e.ref, Holding)])
  }

  function DoClaim(s: State, c: ConnId, t: Token, now: Time): State
    requires c in s.conns
  {
    if ClaimOk(s, c, t, now) then Claimed(s, c, t) else s
  }

  function DoLookup(s: State, c: ConnId): State
    requires c in s.attempts
  {
    if s.attempts[c].session.code in s.registry then s
    else s.(attempts := s.attempts[c := s.attempts[c].(phase := NoRoom)])
  }

  /** The check under all three locks: the token still stands for this very
      session, and the seat is still reserved. */
  predicate Succeeds(s: State, c: ConnId, ref: Ref)
    requires c in s.attempts && ref in s.rooms
  {
    var a := s.attempts[c];
    && a.token in s.sessions && s.sessions[a.token].ref == a.ref
    && a.session.user in s.rooms[ref].away && a.session.user !in s.rooms[ref].clients
    && c in s.conns && s.conns[c].room.None?
  }

  function Consumed(s: State, c: ConnId, ref: Ref): State
    requires c in s.attempts && ref in s.rooms && c in s.conns
  {
    var a := s.attempts[c];
    var conns := s.conns[c := s.conns[c].(id := a.session.user, name := a.session.name, token := Some(a.token), room := Some(ref))];
    s.(conns := conns,
       rooms := s.rooms[ref := Rejoined(s.rooms[ref], conns, c, a.session.user)],
       sessions := s.sessions - {a.token},
       attempts := s.attempts - {c},
       consumed := s.consumed + {a.ref})
  }

  function DoConsume(s: State, c: ConnId, ref: Ref): State
    requires c in s.attempts && ref in s.rooms
  {
    if Succeeds(s, c, ref) then Consumed(s, c, ref)
    else s.(attempts := s.attempts[c := s.attempts[c].(phase := Refused)])
  }

  /** The deferred release of a claim that was not consumed. */
  function DoRelease(s: State, c: ConnId): State
    requires c in s.attempts
  {
    var a := s.attempts[c];
    s.(attempts := s.attempts - {c},
       sessions := if a.token in s.sessions && s.sessions[a.token].ref == a.ref
                   then s.sessions[a.token := s.sessions[a.token].(claimed := false)] else s.sessions)
  }

  function ExpiredTokens(s: State, now: Time): set<Token>
  {
    set t | t in s.sessions && now - s.sessions[t].session.at > GRACE
  }

  /** The first half of `cleanupExpiredSessionsOnce`. */
  function DoTake(s: State, now: Time): State
  {
    var ts := ExpiredTokens(s, now);
    Revoke(s, ts).(expiring := s.expiring + set t | t in ts && t in s.sessions :: s.sessions[t].session)
  }

  /** The second half, for one session whose seat is still reserved. */
  function ExpiredIn(s: State, x: Session, ref: Ref, d: Option<ConnId>): State
    requires ref in s.rooms && (d.Some? ==> d.value in s.conns)
  {
    var q := Expired(s.rooms[ref], s.conns, x.user, d);
    PutRoom(s.(expiring := s.expiring - {x}, closing := if Dead(q) then s.closing + {ref} else s.closing), ref, q)
  }

  function DoExpire(s: State, x: Session, d: Option<ConnId>): State
    requires x.code in s.registry && s.registry[x.code] in s.rooms && (d.Some? ==> d.value in s.conns)
  {
    var ref := s.registry[x.code];
    if x.user in s.rooms[ref].away then ExpiredIn(s, x, ref, d) else s.(expiring := s.expiring - {x})
  }

  function DoFailover(s: State, ref: Ref, now: Time, d: Option<ConnId>): State
    requires ref in s.rooms && (d.Some? ==> d.value in s.conns)
  {
    var r := s.rooms[ref];
    if !FailoverDue(r, now) || d.None? then s else PutRoom(s, ref, FailedOver(r, s.conns, d.value))
  }

  function ReleaseAll(conns: Conns, r: Room, ref: Ref): Conns
  {
    map c | c in conns ::
      conns[c].(room := if c in r.clients.Values && conns[c].room == Some(ref) then None else conns[c].room,
                pendingRoom := if c in r.pending.Values && conns[c].pendingRoom == Some(ref) then None else conns[c].pendingRoom)
  }

  function Vacated(r: Room): Room { r.(clients := map[], pending := map[], away := map[], host := None) }

  function Deleted(s: State, ref: Ref): State
    requires ref in s.rooms
  {
    s.(conns := ReleaseAll(s.conns, s.rooms[ref], ref),
       rooms := s.rooms[ref := s.rooms[ref].(pending := map[])],
       registry := s.registry - {s.rooms[ref].code})
  }

  /** `deleteRoomIfEmpty`. */
  function DoDelete(s: State, ref: Ref): State
    requires ref in s.rooms
  {
    if Registered(s, ref) && Deserted(s.rooms[ref]) then Deleted(s, ref) else s
  }

  /** `closeRoom`. */
  function DoCloseRoom(s: State, ref: Ref): State
    requires ref in s.rooms
  {
    var r := s.rooms[ref];
    var t := Revoke(s, set t | t in s.sessions && s.sessions[t].session.code == r.code);
    t.(conns := ReleaseAll(s.conns, r, ref),
       rooms := s.rooms[ref := Vacated(r)],
       registry := if Registered(s, ref) then s.registry - {r.code} else s.registry,
       closing := s.closing - {ref})
  }

  predicate SuggestOk(s: State, c: ConnId, track: Track)
    requires c in s.conns && s.conns[c].room.Some? && s.conns[c].room.value in s.rooms
  {
    var k := s.conns[c];
    var r := s.rooms[k.room.value];
    && k.id in r.clients && r.clients[k.id] == c && r.hostId != Some(k.id)
    && |r.suggestions| < MAX_SUGGESTIONS && |By(r.suggestions, k.id)| < MAX_PER_USER
    && !exists x :: x in r.suggestions && r.suggestions[x].author == k.id && r.suggestions[x].track.id == track.id
  }

  function DoSuggest(s: State, c: ConnId, id: SuggestionId, raw: Track): State
    requires c in s.conns
  {
    var k := s.conns[c];
    if k.room.None? || k.room.value !in s.rooms || CleanTrack(raw).None? || !SuggestOk(s, c, CleanTrack(raw).value) then s
    else PutRoom(s, k.room.value, Submitted(s.rooms[k.room.value], Suggestion(id, k.id, k.name, CleanTrack(raw).value)))
  }

  function DoApproveSuggestion(s: State, c: ConnId, id: SuggestionId, now: int): State
    requires InRoom(s, c)
  {
    var ref := s.conns[c].room.value;
    var r := s.rooms[ref];
    if !Hosting(s, c) || id !in r.suggestions then s
    else
      var x := r.suggestions[id];
      var t := x.track.(suggestedBy := x.authorName);
      var (p, o) := Suggested(r.play, t, now);
      if o.Applied? then PutRoom(s.(clock := now), ref, Resolved(r, id, Approved(id, t)).(play := p))
      else if o == Failed(QueueTooLarge) then PutRoom(s, ref, Signed(r, id))
      else s
  }

  function DoRejectSuggestion(s: State, c: ConnId, id: SuggestionId, reason: Str): State
    requires c in s.conns
  {
    var k := s.conns[c];
    if k.room.None? || k.room.value !in s.rooms then s
    else
      var ref := k.room.value;
      var r := s.rooms[ref];
      if r.host != Some(c) || r.hostAway.Some? || id !in r.suggestions then s
      else PutRoom(s, ref, Resolved(r, id, Rejected(id, Sanitize(reason, 200))))
  }

  function DoControl(s: State, c: ConnId, m: Request, now: int): State
    requires InRoom(s, c)
  {
    var ref := s.conns[c].room.value;
    var r := s.rooms[ref];
    if !Hosting(s, c) || !(s.conns[c].id in r.clients && r.clients[s.conns[c].id] == c) then s
    else PutRoom(s.(clock := now), ref, r.(play := Handle(r.play, m, now, s.conns[c].rtt).0))
  }

  /** Steps a member or applicant takes. */
  ghost function GuestStep(s: State, a: Step): State
    requires Enabled(s, a)
  {
    match a
    case Connect(c, id, allow) =>
      s.(conns := s.conns[c := Conn(id, [], None, None, None, false, allow, 0, false)], usedIds := s.usedIds + {id})
    case Measure(c, rtt) => PutConn(s, c, s.conns[c].(rtt := rtt))
    case Close(c) => PutConn(s, c, s.conns[c].(closed := true))
    case Create(c, raw, code, ref, token, now) => DoCreate(s, c, raw, code, ref, token, now)
    case Join(c, raw, code) => DoJoin(s, c, raw, code)
    case RemovePending(c) => DoRemovePending(s, c)
    case Cancel(c, id) => DoCancel(s, c, id)
    case Leave(c, d) => DoLeave(s, c, d)
    case Detach(c, now, token) => DoDetach(s, c, now, token)
    case Suggest(c, id, track) => DoSuggest(s, c, id, track)
    case _ => s
  }

  /** Steps only a seated host gets anywhere with. */
  ghost function HostStep(s: State, a: Step): State
    requires Enabled(s, a)
  {
    match a
    case Approve(c, key, token) => DoApprove(s, c, key, token)
    case RejectJoin(c, key) => DoRejectJoin(s, c, key)
    case Kick(c, u) => DoKick(s, c, u)
    case Transfer(c, u) => DoTransfer(s, c, u)
    case ApproveSuggestion(c, id, now) => DoApproveSuggestion(s, c, id, now)
    case RejectSuggestion(c, id, reason) => DoRejectSuggestion(s, c, id, reason)
    case Control(c, m, now) => DoControl(s, c, m, now)
    case _ => s
  }

  /** Steps of a reconnect and of the server's own timers. */
  ghost function ServerStep(s: State, a: Step): State
    requires Enabled(s, a)
  {
    match a
    case Claim(c, t, now) => DoClaim(s, c, t, now)
    case Lookup(c) => DoLookup(s, c)
    case DropToken(c) => Revoke(s, {s.attempts[c].token})
    case Consume(c, ref) => DoConsume(s, c, ref)
    case Release(c) => DoRelease(s, c)
    case Take(now) => DoTake(s, now)
    case Expire(x, d) => DoExpire(s, x, d)
    case ExpireStale(x) => s.(expiring := s.expiring - {x})
    case Failover(ref, now, d) => DoFailover(s, ref, now, d)
    case Delete(ref) => DoDelete(s, ref)
    case CloseRoom(ref) => DoCloseRoom(s, ref)
    case _ => s
  }

  predicate FromGuest(a: Step)
  {
    || a.Connect? || a.Measure? || a.Close? || a.Create? || a.Join? || a.RemovePending? || a.Cancel? || a.Leave?
    || a.Detach? || a.Suggest?
  }

  predicate FromHost(a: Step)
  {
    || a.Approve? || a.RejectJoin? || a.Kick? || a.Transfer? || a.ApproveSuggestion? || a.RejectSuggestion?
    || a.Control?
  }

  /** The state after a step. */
  ghost function Next(s: State, a: Step): State
    requires Enabled(s, a)
  {
    if FromGuest(a) then GuestStep(s, a) else if FromHost(a) then HostStep(s, a) else ServerStep(s, a)
  }
}
