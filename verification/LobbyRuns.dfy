/**
 Every interleaving of handlers, reconnects, cleanup, failover and closing keeps
 the whole invariant: host seats, membership, links, tokens and history.
 */
module LobbyRuns {
  import opened Base
  import opened Text
  import opened Tracks
  import opened Playback
  import opened Rooms
  import opened Links
  import opened Lobby
  import opened LobbyRooms
  import opened LobbyLinks
  import opened Tokens

  /** What every reachable state satisfies. */
  ghost predicate Inv(s: State) { RoomsOk(s) && ClosingInv(s) && TokensOk(s) }

  /** Nothing in the invariant is about the playback clock. */
  lemma ClockElsewhere(s: State, now: int)
    requires Inv(s)
    ensures Inv(s.(clock := now))
  {
    hide RegInv, RoomsInv, LinkInv, ClosingInv, TokensOk, TokenFrame;
    var t := s.(clock := now);
    assert RoomsInv(t) by { ConnsOnly(s, t); }
    assert RegInv(t) && ClosingInv(t) by { RegistrySame(s, t); }
    assert TokensOk(t) by { ClockFrame(s, now); FrameTokens(s, t); }
  }

  lemma ClockFrame(s: State, now: int)
    ensures TokenFrame(s, s.(clock := now))
  {
  }

  // ---- guests ----

  lemma ConnOnlyKeeps(s: State, t: State, c: ConnId, k: Conn)
    requires Inv(s) && c in s.conns && t == PutConn(s, c, k)
    requires SameLinks(s.conns[c], k) && k.allow == s.conns[c].allow && k.token == s.conns[c].token
             && (s.conns[c].closed ==> k.closed)
    ensures Inv(t)
  {
    hide RegInv, RoomsInv, LinkInv, ClosingInv, TokensOk, Registered;
    assert RoomsInv(t) by { ConnsOnly(s, t); }
    assert RegInv(t) && ClosingInv(t) by { RegistrySame(s, t); }
    assert Linking(t) by { ConnFrame(s.conns, s.rooms, s.usedIds, c, k); }
    assert TokensOk(t) by { FrameTokens(s, t); }
  }

  lemma ConnectKeeps(s: State, c: ConnId, id: UserId, allow: bool)
    requires Inv(s) && c !in s.conns && id !in s.usedIds
    ensures Inv(s.(conns := s.conns[c := Conn(id, [], None, None, None, false, allow, 0, false)], usedIds := s.usedIds + {id}))
  {
    hide RegInv, RoomsInv, LinkInv, ClosingInv, TokensOk, Registered;
    var k := Conn(id, [], None, None, None, false, allow, 0, false);
    var t := s.(conns := s.conns[c := k], usedIds := s.usedIds + {id});
    assert RoomsInv(t) by { ConnsOnly(s, t); }
    assert RegInv(t) && ClosingInv(t) by { RegistrySame(s, t); }
    assert Linking(t) by { NewConn(s.conns, s.rooms, s.usedIds, c, k); }
    assert TokensOk(t) by { FrameTokens(s, t); }
  }

  lemma CreateKeeps(s: State, c: ConnId, raw: Str, code: Code, ref: Ref, token: Token, now: int)
    requires Inv(s) && Ready(s, c) && ref !in s.rooms && token !in s.usedTokens && CreateOk(s, c, raw, code)
    requires Newcomer(s, s.conns[c].id)
    ensures Inv(Created(s, c, Sanitize(raw, MAX_USERNAME), code, ref, token, now))
  {
    hide RegInv, RoomsInv, LinkInv, ClosingInv, TokensOk, Sanitize, Welcomed;
    var name := Sanitize(raw, MAX_USERNAME);
    var t := Created(s, c, name, code, ref, token, now);
    CreateFrame(s, c, name, code, ref, token, now);
    assert RoomsInv(t) by { CreateRooms(s, c, raw, code, ref, token, now); }
    assert Linking(t) by { CreateLinks(s, c, name, code, ref, token, now); }
    assert RegInv(t) && ClosingInv(t) by { RegistryNew(s, t, ref, t.rooms[ref]); }
    assert TokensOk(t) by { WelcomeTokens(s, t, c, ref, token); }
  }

  lemma CreateFrame(s: State, c: ConnId, name: Str, code: Code, ref: Ref, token: Token, now: int)
    requires c in s.conns && s.conns[c].room.None? && c !in s.attempts && token !in s.usedTokens
    requires ref !in s.rooms && code !in s.registry
    ensures Welcomed(s, Created(s, c, name, code, ref, token, now), c, ref, token)
  {
  }

  lemma JoinKeeps(s: State, c: ConnId, name: Str, ref: Ref)
    requires Inv(s) && Ready(s, c) && Registered(s, ref) && s.conns[c].pendingRoom.None?
    ensures Inv(Joined(s, c, name, ref))
  {
    hide RegInv, RoomsInv, LinkInv, ClosingInv, TokensOk, TokenFrame;
    JoinFrame(s, c, name, ref);
    var t := Joined(s, c, name, ref);
    assert RoomsInv(t) by { JoinRooms(s, c, name, ref); }
    assert Linking(t) by { JoinLinks(s, c, name, ref); }
    assert RegInv(t) && ClosingInv(t) by { RegistryPending(s, t, ref, t.rooms[ref]); }
    assert TokensOk(t) by { FrameTokens(s, t); }
  }

  lemma JoinFrame(s: State, c: ConnId, name: Str, ref: Ref)
    requires c in s.conns && c !in s.attempts && ref in s.rooms
    ensures TokenFrame(s, Joined(s, c, name, ref))
  {
  }

  lemma WithdrawFrame(s: State, c: ConnId, ref: Ref, key: UserId)
    requires c in s.conns && c !in s.attempts && ref in s.rooms
    ensures TokenFrame(s, Withdrawn(s, c, ref, key))
  {
  }

  /** A room with applicants is registered. */
  lemma PendingIsLive(s: State, ref: Ref)
    requires RegInv(s) && ref in s.rooms && s.rooms[ref].pending != map[]
    ensures Registered(s, ref)
  {
  }

  /** A connection with a reconnect in flight has no application. */
  lemma AttemptersIdle(s: State, c: ConnId)
    requires TokensOk(s) && c in s.conns && s.conns[c].pendingRoom.Some?
    ensures c !in s.attempts
  {
    hide TokenInv, HistoryInv, OneHolder, ClaimsHeld;
    assert c in s.attempts ==> Attempting(s, c);
  }

  lemma WithdrawKeeps(s: State, c: ConnId, ref: Ref, key: UserId)
    requires Inv(s) && ref in s.rooms && key in s.rooms[ref].pending && s.rooms[ref].pending[key] == c
    ensures Inv(Withdrawn(s, c, ref, key))
  {
    hide RegInv, RoomsInv, LinkInv, ClosingInv, TokensOk, TokenFrame;
    ApplicantKnown(s, ref, key);
    PendingIsLive(s, ref);
    AttemptersIdle(s, c);
    WithdrawFrame(s, c, ref, key);
    var t := Withdrawn(s, c, ref, key);
    assert RoomsInv(t) by { WithdrawRooms(s, c, ref, key); }
    assert Linking(t) by { WithdrawLinks(s, c, ref, key); }
    assert RegInv(t) && ClosingInv(t) by { RegistryPending(s, t, ref, t.rooms[ref]); }
    assert TokensOk(t) by { FrameTokens(s, t); }
  }

  lemma PointerKeeps(s: State, c: ConnId)
    requires Inv(s) && c in s.conns && s.conns[c].pendingRoom.Some?
    requires var ref := s.conns[c].pendingRoom.value;
             ref in s.rooms ==> !(s.conns[c].id in s.rooms[ref].pending && s.rooms[ref].pending[s.conns[c].id] == c)
    ensures Inv(PutConn(s, c, s.conns[c].(pendingRoom := None)))
  {
    hide RegInv, RoomsInv, LinkInv, ClosingInv, TokensOk, Registered;
    AttemptersIdle(s, c);
    var t := PutConn(s, c, s.conns[c].(pendingRoom := None));
    assert RoomsInv(t) by { ConnsOnly(s, t); }
    assert RegInv(t) && ClosingInv(t) by { RegistrySame(s, t); }
    assert Linking(t) by { PointerCleared(s, c); }
    assert TokensOk(t) by { FrameTokens(s, t); }
  }

  lemma RemovePendingKeeps(s: State, c: ConnId)
    requires Inv(s) && c in s.conns
    ensures Inv(DoRemovePending(s, c))
  {
    hide Inv;
    var k := s.conns[c];
    if k.pendingRoom.Some? {
      var ref := k.pendingRoom.value;
      if ref in s.rooms && k.id in s.rooms[ref].pending && s.rooms[ref].pending[k.id] == c {
        WithdrawKeeps(s, c, k.pendingRoom.value, k.id);
      } else {
        PointerKeeps(s, c);
      }
    }
  }

  lemma RenameKeeps(s: State, c: ConnId, id: UserId)
    requires Inv(s) && c in s.conns && c !in s.attempts && s.conns[c].room.None? && id !in s.usedIds
    requires s.conns[c].pendingRoom.None?
    ensures Inv(s.(conns := s.conns[c := s.conns[c].(id := id)], usedIds := s.usedIds + {id}))
  {
    hide RegInv, RoomsInv, LinkInv, ClosingInv, TokensOk, Registered;
    var t := s.(conns := s.conns[c := s.conns[c].(id := id)], usedIds := s.usedIds + {id});
    assert RoomsInv(t) by { ConnsOnly(s, t); }
    assert RegInv(t) && ClosingInv(t) by { RegistrySame(s, t); }
    assert Linking(t) by { Rename(s.conns, s.rooms, s.usedIds, c, id); }
    assert TokensOk(t) by { FrameTokens(s, t); }
  }

  lemma CancelKeeps(s: State, c: ConnId, id: UserId)
    requires Inv(s) && c in s.conns && c !in s.attempts && id !in s.usedIds
    ensures Inv(DoCancel(s, c, id))
  {
    hide Inv, DoRemovePending;
    if s.conns[c].room.None? {
      RemovePendingKeeps(s, c);
      RemovePendingFacts(s, c);
      RenameKeeps(DoRemovePending(s, c), c, id);
    }
  }

  /** Afterwards c has applied nowhere; little else changed. */
  lemma RemovePendingFacts(s: State, c: ConnId)
    requires c in s.conns
    ensures var t := DoRemovePending(s, c);
            && c in t.conns && t.conns[c].room == s.conns[c].room && t.usedIds == s.usedIds && t.attempts == s.attempts
            && t.conns[c].pendingRoom.None?
  {
    hide ClearPending;
    if s.conns[c].pendingRoom.Some? { ClearedPending(s.conns, c, s.conns[c].pendingRoom.value); }
  }

  lemma ClearedPending(conns: Conns, c: ConnId, ref: Ref)
    requires c in conns && conns[c].pendingRoom == Some(ref)
    ensures ClearPending(conns, c, ref) == conns[c := conns[c].(pendingRoom := None)]
  {
  }

  // ---- leaving and disconnecting ----

  lemma NoRefs(ss: Tokens.Sessions)
    ensures Refs(ss, {}) == {}
  {
  }

  /** Departures touch seats and tokens of nobody else. */
  lemma DepartFrame(s: State, t: State, c: ConnId, ref: Ref, q: Room, ts: set<Token>)
    requires c in s.conns && ref in s.rooms && c !in s.attempts
    requires q.clients == s.rooms[ref].clients - {s.conns[c].id} && q.away == s.rooms[ref].away
    requires t.conns == ClearRoom(s.conns, c, ref) && t.rooms == s.rooms[ref := q]
    requires t.sessions == s.sessions - ts && t.revoked == s.revoked + Refs(s.sessions, ts) && t.registry == s.registry
    requires t.attempts == s.attempts && t.expiring == s.expiring && t.nextSession == s.nextSession
             && t.consumed == s.consumed
    requires t.usedTokens == s.usedTokens && t.usedIds == s.usedIds
    ensures Thinned(s, t, ts)
  {
    hide Refs;
  }

  /** Active members are not reserved, and their token is not stored. */
  lemma ActiveFacts(s: State, c: ConnId)
    requires Inv(s) && c in s.conns && s.conns[c].room.Some?
    ensures var ref := s.conns[c].room.value;
            && Registered(s, ref) && Departing(s, c, ref) && s.conns[c].id !in s.rooms[ref].away
            && s.conns[c].token.Some? && s.conns[c].token.value !in s.sessions
            && Roster(s.rooms[ref])
  {
    hide ClosingInv, AttemptInv, HistoryInv, Backed, Separate, Covered, Issued;
    HomeIsLive(s, c);
    var ref := s.conns[c].room.value;
    assert RoomInv(s.rooms[ref], s.conns);
    Apart(s.rooms[ref], s.conns[c].id);
    assert MemberIn(s.rooms, ref, s.conns[c].id);
    ActiveIdle(s, c);
    hide RoomsInv, RegInv, Linked, BackLinked, Applicants, Known, Roster, HostInv, MailInv;
  }

  lemma ActiveIdle(s: State, c: ConnId)
    requires TokensOk(s) && c in s.conns && s.conns[c].room.Some?
    ensures c !in s.attempts
  {
    hide TokenInv, HistoryInv, OneHolder, ClaimsHeld;
    assert c in s.attempts ==> Attempting(s, c);
  }

  lemma LeaveKeeps(s: State, c: ConnId, d: Option<ConnId>)
    requires Inv(s) && InRoom(s, c) && Active(s, c) && Picked(s, RoomOf(s, c).clients - {s.conns[c].id}, d)
    ensures Inv(DoLeave(s, c, d))
  {
    hide RegInv, RoomsInv, LinkInv, ClosingInv, TokensOk, Left, Refs, Roster, Departing, Deputy, Dead;
    ActiveFacts(s, c);
    var ref := s.conns[c].room.value;
    var u := s.conns[c].id;
    var q := Left(s.rooms[ref], s.conns, c, u, d);
    var m := LeftRoom(s, c, ref, q);
    var t := DoLeave(s, c, d);
    LeftFields(s.rooms[ref], s.conns, c, u, d);
    NothingToDrop(s.rooms[ref].away, u);
    assert RoomsInv(m) by { LeaveRooms(s, c, d); }
    assert Linking(m) by { LeaveLinks(s, c, d); }
    assert RegInv(m) && ClosingInv(m) by { RegistryPut(s, m, ref, q); }
    assert TokensOk(t) by {
      DepartFrame(s, t, c, ref, q, {s.conns[c].token.value});
      hide Thinned;
      DepartTokens(s, t, {s.conns[c].token.value});
    }
    SessionsElsewhere(m, t);
  }

  /** Rooms and links do not look at tokens. */
  lemma SessionsElsewhere(m: State, t: State)
    requires t.conns == m.conns && t.rooms == m.rooms && t.registry == m.registry && t.closing == m.closing
             && t.usedIds == m.usedIds
    ensures RoomsInv(m) ==> RoomsInv(t)
    ensures RegInv(m) && ClosingInv(m) ==> RegInv(t) && ClosingInv(t)
    ensures Linking(m) ==> Linking(t)
  {
    hide LinkInv, RoomInv;
    if RegInv(m) && ClosingInv(m) { RegistrySame(m, t); }
    assert forall x :: Registered(t, x) <==> Registered(m, x);
  }

  lemma DetachKeeps(s: State, c: ConnId, now: Time)
    requires Inv(s) && InRoom(s, c) && Active(s, c) && s.conns[c].token.Some?
    ensures Inv(Detached(s, c, s.conns[c].room.value, s.conns[c].token.value, now))
  {
    hide RegInv, RoomsInv, LinkInv, ClosingInv, TokensOk, Disconnected, Roster, Departing, Dead;
    ActiveFacts(s, c);
    var ref := s.conns[c].room.value;
    var token := s.conns[c].token.value;
    var t := Detached(s, c, ref, token, now);
    DisconnectedFields(s.rooms[ref], c, s.conns[c].id, s.conns[c].name, now);
    assert RoomsInv(t) by { DetachRooms(s, c, token, now); }
    assert Linking(t) by { DetachLinks(s, c, token, now); }
    assert RegInv(t) && ClosingInv(t) by { RegPut(s, t, ref, t.rooms[ref]); ClosingPut(s, t, ref, t.rooms[ref]); }
    assert TokensOk(t) by { DetachTokens(s, c, ref, token, now); }
  }

  // ---- the host's answers ----

  lemma AdmitFrame(s: State, j: ConnId, ref: Ref, key: UserId, token: Token)
    requires j in s.conns && ref in s.rooms && s.conns[j].room.None? && j !in s.attempts
    requires token !in s.usedTokens
    ensures Welcomed(s, Admit(s, j, ref, key, token), j, ref, token)
  {
    hide Admitted;
    AdmittedFields(s.rooms[ref], key, j, s.conns[j].id, s.conns[j].name);
  }

  lemma AdmitKeeps(s: State, c: ConnId, key: UserId, token: Token)
    requires Inv(s) && InRoom(s, c) && Answers(s, c, key) && Admissible(s, c, key) && token !in s.usedTokens
             && Newcomer(s, key)
    ensures Inv(Admit(s, RoomOf(s, c).pending[key], s.conns[c].room.value, key, token))
  {
    hide RegInv, RoomsInv, LinkInv, ClosingInv, TokensOk, Welcomed, Admitted, Dead;
    var ref := s.conns[c].room.value;
    var j := s.rooms[ref].pending[key];
    HomeIsLive(s, c);
    ApplicantKnown(s, ref, key);
    AttemptersIdle(s, j);
    var t := Admit(s, j, ref, key, token);
    AdmitFrame(s, j, ref, key, token);
    AdmittedFields(s.rooms[ref], key, j, s.conns[j].id, s.conns[j].name);
    assert RoomsInv(t) by { ApproveRooms(s, c, key, token); }
    assert Linking(t) by { AdmitLinks(s, j, ref, key, token); }
    assert RegInv(t) && ClosingInv(t) by { RegPut(s, t, ref, t.rooms[ref]); ClosingPut(s, t, ref, t.rooms[ref]); }
    assert TokensOk(t) by { WelcomeTokens(s, t, j, ref, token); }
  }

  /** A hosted room is nowhere near being closed. */
  lemma HostedKick(s: State, c: ConnId, u: UserId)
    requires Inv(s) && InRoom(s, c) && KickOk(s, c, u)
    ensures var ref := s.conns[c].room.value;
            && Registered(s, ref) && ref !in s.closing && Roster(s.rooms[ref])
            && !(u in s.rooms[ref].clients && u in s.rooms[ref].away)
  {
    hide ClosingInv, TokensOk, LinkInv;
    HomeIsLive(s, c);
    assert RoomInv(RoomOf(s, c), s.conns);
    Apart(RoomOf(s, c), u);
    hide RoomsInv, RegInv, Roster, HostInv, MailInv;
  }

  lemma KickActiveKeeps(s: State, c: ConnId, u: UserId)
    requires Inv(s) && InRoom(s, c) && KickOk(s, c, u) && u in RoomOf(s, c).clients
    ensures Inv(DoKick(s, c, u))
  {
    hide RegInv, RoomsInv, LinkInv, ClosingInv, TokensOk, Kicked, Roster, Thinned, Dead, Refs;
    var ref := s.conns[c].room.value;
    var r := s.rooms[ref];
    var j := r.clients[u];
    HostedKick(s, c, u);
    KickedFields(r, u);
    ClientsExist(s, ref);
    TargetIdle(s, ref, u);
    var t := DoKick(s, c, u);
    NoRefs(s.sessions);
    assert RoomsInv(t) by { KickRooms(s, c, u); }
    assert Linking(t) by { KickActiveLinks(s, ref, u); }
    assert RegInv(t) && ClosingInv(t) by { RegPut(s, t, ref, Kicked(r, u)); ClosingPut(s, t, ref, Kicked(r, u)); }
    assert TokensOk(t) by {
      DepartFrame(s, t, j, ref, Kicked(r, u), {});
      DepartTokens(s, t, {});
    }
  }

  lemma TargetIdle(s: State, ref: Ref, u: UserId)
    requires Linking(s) && TokensOk(s) && ref in s.rooms && u in s.rooms[ref].clients
    ensures var j := s.rooms[ref].clients[u]; j in s.conns && s.conns[j].id == u && j !in s.attempts
  {
    hide TokensOk, BackLinked, Applicants, OneHome, Known;
    ActiveIdle(s, s.rooms[ref].clients[u]);
  }

  /** A reserved member's tokens are exactly those filed under the room's code. */
  lemma OwnTokens(s: State, ref: Ref, u: UserId, v: Token)
    requires RoomsOk(s) && Backed(s) && ref in s.rooms && u in s.rooms[ref].away
    requires v in s.sessions && s.sessions[v].session.user == u
    ensures s.sessions[v].session.code == s.rooms[ref].code
  {
    hide RoomsOk;
    SeatFiled(s, ref, u);
    var x := s.sessions[v].session;
    assert Stands(x, s.rooms, s.registry);
    assert MemberIn(s.rooms, s.registry[x.code], u);
  }

  lemma KickAwayThins(s: State, ref: Ref, u: UserId)
    requires ref in s.rooms && u !in s.rooms[ref].clients
    ensures Thinned(s, KickAway(s, ref, u), TokensOf(s, s.rooms[ref].code, u))
  {
    hide Kicked, Refs, TokensOf;
    KickedFields(s.rooms[ref], u);
  }

  lemma KickAwayUnseats(s: State, ref: Ref, u: UserId)
    requires RoomsOk(s) && Backed(s) && ref in s.rooms && u in s.rooms[ref].away && u !in s.rooms[ref].clients
    ensures Unseated(s, KickAway(s, ref, u), ref, u, TokensOf(s, s.rooms[ref].code, u))
  {
    hide Kicked, Refs, RoomsOk, Backed;
    KickedFields(s.rooms[ref], u);
    forall v | v in s.sessions && s.sessions[v].session.user == u ensures v in TokensOf(s, s.rooms[ref].code, u) {
      OwnTokens(s, ref, u, v);
    }
  }

  lemma TokensBacked(s: State)
    requires TokensOk(s)
    ensures Backed(s)
  {
    hide Backed;
  }

  lemma KickAwayKeeps(s: State, c: ConnId, u: UserId)
    requires Inv(s) && InRoom(s, c) && KickOk(s, c, u) && u !in RoomOf(s, c).clients
    ensures Inv(DoKick(s, c, u))
  {
    hide RegInv, RoomsInv, LinkInv, ClosingInv, TokensOk, Kicked, Roster, Thinned, Unseated, Dead, Refs, TokensOf;
    var ref := s.conns[c].room.value;
    var r := s.rooms[ref];
    HostedKick(s, c, u);
    KickedFields(r, u);
    var t := KickAway(s, ref, u);
    assert RoomsInv(t) by { KickRooms(s, c, u); }
    assert Linking(t) by { KickAwayLinks(s, ref, u); }
    assert RegInv(t) && ClosingInv(t) by { RegPut(s, t, ref, Kicked(r, u)); ClosingPut(s, t, ref, Kicked(r, u)); }
    assert TokensOk(t) by {
      hide KickAway;
      TokensBacked(s);
      KickAwayThins(s, ref, u);
      KickAwayUnseats(s, ref, u);
      UnseatTokens(s, t, ref, u, TokensOf(s, r.code, u));
    }
  }

  /** Steps that change one room's roles, mail or playback only. */
  lemma InnerKeeps(s: State, ref: Ref, q: Room)
    requires Inv(s) && Registered(s, ref) && q.code == s.rooms[ref].code && SameSeating(s.rooms[ref], q)
    requires RoomsInv(PutRoom(s, ref, q)) && (ref in s.closing ==> Dead(q))
    ensures Inv(PutRoom(s, ref, q))
  {
    hide RegInv, RoomsInv, LinkInv, ClosingInv, TokensOk, Dead, TokenFrame;
    var t := PutRoom(s, ref, q);
    assert Linking(t) by { RoomFrame(s.conns, s.rooms, s.usedIds, ref, q); }
    assert RegInv(t) && ClosingInv(t) by { RegPut(s, t, ref, q); ClosingPut(s, t, ref, q); }
    assert TokensOk(t) by { InnerFrame(s, ref, q); FrameTokens(s, t); }
  }

  lemma InnerFrame(s: State, ref: Ref, q: Room)
    requires ref in s.rooms && SameSeating(s.rooms[ref], q)
    ensures TokenFrame(s, PutRoom(s, ref, q))
  {
  }

  lemma TransferKeeps(s: State, c: ConnId, u: UserId)
    requires Inv(s) && InRoom(s, c) && TransferOk(s, c, u)
    ensures Inv(DoTransfer(s, c, u))
  {
    hide RegInv, RoomsInv, LinkInv, ClosingInv, TokensOk, Transferred, Dead;
    var ref := s.conns[c].room.value;
    HomeIsLive(s, c);
    TransferRooms(s, c, u);
    TransferredFields(s.rooms[ref], s.conns, s.rooms[ref].clients[u]);
    InnerKeeps(s, ref, Transferred(s.rooms[ref], s.conns, s.rooms[ref].clients[u]));
  }

  lemma FailoverKeeps(s: State, ref: Ref, now: Time, d: Option<ConnId>)
    requires Inv(s) && ref in s.rooms && ref !in s.closing && Picked(s, s.rooms[ref].clients, d)
    ensures Inv(DoFailover(s, ref, now, d))
  {
    var r := s.rooms[ref];
    if FailoverDue(r, now) && d.Some? {
      assert Registered(s, ref) by {
        var u :| Best(r.clients, s.conns, u) && r.clients[u] == d.value;
        hide RoomsInv, LinkInv, ClosingInv, TokensOk;
        assert u in r.clients;
      }
      hide RegInv, RoomsInv, LinkInv, ClosingInv, TokensOk, FailedOver, Dead, Deputy;
      FailoverRooms(s, ref, now, d);
      FailedOverFields(r, s.conns, d.value);
      InnerKeeps(s, ref, FailedOver(r, s.conns, d.value));
    }
  }

  lemma ResolveKeeps(s: State, ref: Ref, id: SuggestionId, n: Notice, p: Play)
    requires Inv(s) && Registered(s, ref) && id in s.rooms[ref].suggestions
    ensures Inv(PutRoom(s, ref, Resolved(s.rooms[ref], id, n).(play := p)))
  {
    hide RegInv, RoomsInv, LinkInv, ClosingInv, TokensOk, Resolved;
    ResolveRooms(s, ref, id, n, p);
    ResolvedFields(s.rooms[ref], id, n);
    ClosingDead(s, ref);
    InnerKeeps(s, ref, Resolved(s.rooms[ref], id, n).(play := p));
  }

  lemma SignKeeps(s: State, ref: Ref, id: SuggestionId)
    requires Inv(s) && Registered(s, ref) && id in s.rooms[ref].suggestions
    ensures Inv(PutRoom(s, ref, Signed(s.rooms[ref], id)))
  {
    hide RegInv, RoomsInv, LinkInv, ClosingInv, TokensOk, Signed;
    SignRooms(s, ref, id);
    SignedFields(s.rooms[ref], id);
    ClosingDead(s, ref);
    InnerKeeps(s, ref, Signed(s.rooms[ref], id));
  }

  lemma ClosingDead(s: State, ref: Ref)
    requires ClosingInv(s)
    ensures ref in s.closing ==> ref in s.rooms && Dead(s.rooms[ref])
  {
  }

  lemma ControlKeeps(s: State, ref: Ref, p: Play)
    requires Inv(s) && Registered(s, ref)
    ensures Inv(PutRoom(s, ref, s.rooms[ref].(play := p)))
  {
    hide RegInv, RoomsInv, LinkInv, ClosingInv, TokensOk;
    ControlRooms(s, ref, p);
    ClosingDead(s, ref);
    InnerKeeps(s, ref, s.rooms[ref].(play := p));
  }

  lemma SuggestKeeps(s: State, c: ConnId, id: SuggestionId, t: Track)
    requires Inv(s) && c in s.conns && s.conns[c].room.Some? && s.conns[c].room.value in s.rooms && SuggestOk(s, c, t)
    requires id !in s.rooms[s.conns[c].room.value].suggestions
    ensures var k := s.conns[c];
            Inv(PutRoom(s, k.room.value, Submitted(s.rooms[k.room.value], Suggestion(id, k.id, k.name, t))))
  {
    hide RegInv, RoomsInv, LinkInv, ClosingInv, TokensOk, By;
    var ref := s.conns[c].room.value;
    HomeIsLive(s, c);
    SuggestRooms(s, c, id, t);
    ClosingDead(s, ref);
    InnerKeeps(s, ref, Submitted(s.rooms[ref], Suggestion(id, s.conns[c].id, s.conns[c].name, t)));
  }
}
