/** Every step keeps the links between connections, rooms and the registry. */
module LobbyLinks {
  import opened Base
  import opened Text
  import opened Tracks
  import opened Playback
  import opened Rooms
  import opened Links
  import opened Lobby
  import opened LobbyRooms

  // ---- registry ----

  lemma RegPut(s: State, t: State, ref: Ref, q: Room)
    requires RegInv(s) && ref in s.rooms && q.code == s.rooms[ref].code && (Registered(s, ref) || Vacant(q))
    requires t.rooms == s.rooms[ref := q] && t.registry == s.registry
    ensures RegInv(t)
  {
    assert forall x :: Registered(t, x) <==> Registered(s, x);
  }

  lemma ClosingPut(s: State, t: State, ref: Ref, q: Room)
    requires ClosingInv(s) && ref in s.rooms && q.code == s.rooms[ref].code
    requires t.rooms == s.rooms[ref := q] && t.registry == s.registry
    requires t.closing == s.closing || (t.closing == s.closing + {ref} && Registered(s, ref))
    requires ref in t.closing ==> Dead(q)
    ensures ClosingInv(t)
  {
    assert forall x :: Registered(s, x) ==> Registered(t, x);
  }

  /** Registry bookkeeping of a step that changes one registered room. */
  lemma RegistryPut(s: State, t: State, ref: Ref, q: Room)
    requires RegInv(s) && ClosingInv(s) && Registered(s, ref) && q.code == s.rooms[ref].code
    requires t.rooms == s.rooms[ref := q] && t.registry == s.registry
    requires t.closing == if Dead(q) then s.closing + {ref} else s.closing
    requires ref !in s.closing
    ensures RegInv(t) && ClosingInv(t)
  {
    hide Dead;
    RegPut(s, t, ref, q);
    ClosingPut(s, t, ref, q);
  }

  lemma RegistrySame(s: State, t: State)
    requires RegInv(s) && ClosingInv(s) && t.rooms == s.rooms && t.registry == s.registry && t.closing == s.closing
    ensures RegInv(t) && ClosingInv(t)
  {
    assert forall x :: Registered(t, x) <==> Registered(s, x);
  }

  /** Applicants come and go without touching who is where. */
  lemma RegistryPending(s: State, t: State, ref: Ref, q: Room)
    requires RegInv(s) && ClosingInv(s) && ref in s.rooms && q.code == s.rooms[ref].code
    requires q.clients == s.rooms[ref].clients && q.away == s.rooms[ref].away && q.hostId == s.rooms[ref].hostId
    requires Registered(s, ref) || Vacant(q)
    requires t.rooms == s.rooms[ref := q] && t.registry == s.registry && t.closing == s.closing
    ensures RegInv(t) && ClosingInv(t)
  {
    RegPut(s, t, ref, q);
    ClosingPut(s, t, ref, q);
  }

  // ---- facts about one connection ----

  /** Whoever has a reserved seat has no other home and is active nowhere. */
  lemma SeatIsHome(s: State, ref: Ref, u: UserId)
    requires Linking(s) && ref in s.rooms && u in s.rooms[ref].away && u !in s.rooms[ref].clients
    ensures forall x :: MemberIn(s.rooms, x, u) ==> x == ref
    ensures forall d :: d in s.conns && s.conns[d].id == u ==> s.conns[d].room.None?
    ensures u in s.usedIds
  {
    hide Linked, Applicants;
    assert MemberIn(s.rooms, ref, u);
    assert forall d :: d in s.conns && s.conns[d].id == u && s.conns[d].room.Some? ==>
        ActiveIn(s.rooms, s.conns[d].room.value, u, d) && MemberIn(s.rooms, s.conns[d].room.value, u);
  }

  lemma IdIsUsed(s: State, c: ConnId)
    requires Linking(s) && c in s.conns
    ensures s.conns[c].id in s.usedIds
  {
  }

  // ---- step by step ----

  lemma CreateLinks(s: State, c: ConnId, name: Str, code: Code, ref: Ref, token: Token, now: int)
    requires Linking(s) && c in s.conns && ref !in s.rooms && Newcomer(s, s.conns[c].id)
    requires s.conns[c].room.None? && s.conns[c].pendingRoom.None?
    ensures Linking(Created(s, c, name, code, ref, token, now))
  {
    IdIsUsed(s, c);
    var u := s.conns[c].id;
    var q := Opened(code, c, u, name, now);
    var vacant := Vacated(q);
    NewRoom(s.conns, s.rooms, s.usedIds, ref, vacant);
    var rooms := s.rooms[ref := vacant];
    var k := s.conns[c].(name := name, token := Some(token), room := Some(ref));
    hide LinkInv;
    assert forall x :: MemberIn(rooms, x, u) ==> MemberIn(s.rooms, x, u) || x == ref;
    assert Enters(s.conns, rooms, s.usedIds, ref, q, c, k, u);
    Enter(s.conns, rooms, s.usedIds, ref, q, c, k, u);
    assert rooms[ref := q] == s.rooms[ref := q];
  }

  lemma NewEntry(s: State, t: State, ref: Ref, q: Room, x: Ref)
    requires RegInv(s) && ref !in s.rooms && q.code !in s.registry && x in s.rooms
    requires t.rooms == s.rooms[ref := q] && t.registry == s.registry[q.code := ref]
    ensures Registered(t, x) <==> Registered(s, x)
    ensures t.rooms[x] == s.rooms[x]
  {
    hide RegInv;
  }

  lemma RegistryNew(s: State, t: State, ref: Ref, q: Room)
    requires RegInv(s) && ClosingInv(s) && ref !in s.rooms && q.code !in s.registry
    requires t.rooms == s.rooms[ref := q] && t.registry == s.registry[q.code := ref] && t.closing == s.closing
    ensures RegInv(t) && ClosingInv(t)
  {
    hide Dead, Vacant;
    forall x | x in t.closing ensures Registered(t, x) && Dead(t.rooms[x]) { NewEntry(s, t, ref, q, x); }
    forall x | x in t.rooms && !Registered(t, x) ensures Vacant(t.rooms[x]) {
      if x != ref { NewEntry(s, t, ref, q, x); }
    }
  }

  lemma JoinLinks(s: State, c: ConnId, name: Str, ref: Ref)
    requires Linking(s) && c in s.conns && ref in s.rooms && s.conns[c].pendingRoom.None?
    ensures Linking(Joined(s, c, name, ref))
  {
    hide LinkInv;
    var t := Joined(s, c, name, ref);
    Applying(s.conns, s.rooms, s.usedIds, ref, t.rooms[ref], c, t.conns[c]);
  }

  lemma WithdrawLinks(s: State, c: ConnId, ref: Ref, key: UserId)
    requires Linking(s) && ref in s.rooms && key in s.rooms[ref].pending && s.rooms[ref].pending[key] == c
    ensures Linking(Withdrawn(s, c, ref, key))
  {
    ApplicantKnown(s, ref, key);
    hide LinkInv;
    var t := Withdrawn(s, c, ref, key);
    Withdraw(s.conns, s.rooms, s.usedIds, ref, t.rooms[ref], c, t.conns[c]);
  }

  lemma PointerCleared(s: State, c: ConnId)
    requires Linking(s) && c in s.conns && s.conns[c].pendingRoom.Some?
    requires var ref := s.conns[c].pendingRoom.value;
             ref in s.rooms ==> !(s.conns[c].id in s.rooms[ref].pending && s.rooms[ref].pending[s.conns[c].id] == c)
    ensures Linking(PutConn(s, c, s.conns[c].(pendingRoom := None)))
  {
    var ref := s.conns[c].pendingRoom.value;
    if ref in s.rooms {
      hide LinkInv;
      Withdraw(s.conns, s.rooms, s.usedIds, ref, s.rooms[ref], c, s.conns[c].(pendingRoom := None));
      assert s.rooms[ref := s.rooms[ref]] == s.rooms;
    } else {
      hide OneHome, ActiveIn, MemberIn;
    }
  }

  lemma AdmitLinks(s: State, j: ConnId, ref: Ref, key: UserId, token: Token)
    requires Linking(s) && ref in s.rooms && key in s.rooms[ref].pending && s.rooms[ref].pending[key] == j
    requires j in s.conns && s.conns[j].room.None? && Newcomer(s, key)
    ensures Linking(Admit(s, j, ref, key, token))
  {
    ApplicantKnown(s, ref, key);
    hide LinkInv, Admitted;
    var t := Admit(s, j, ref, key, token);
    var r := s.rooms[ref];
    AdmittedFields(r, key, j, key, s.conns[j].name);
    assert !MemberIn(s.rooms, ref, key);
    NothingToDrop(r.away, key);
    assert Enters(s.conns, s.rooms, s.usedIds, ref, t.rooms[ref], j, t.conns[j], key);
    Enter(s.conns, s.rooms, s.usedIds, ref, t.rooms[ref], j, t.conns[j], key);
  }

  /** Whatever removes an active member without keeping the seat. */
  lemma DepartLinks(s: State, t: State, c: ConnId, ref: Ref, q: Room)
    requires Linking(s) && c in s.conns && s.conns[c].room == Some(ref)
    requires ActiveIn(s.rooms, ref, s.conns[c].id, c)
    requires q.clients == s.rooms[ref].clients - {s.conns[c].id} && q.away == s.rooms[ref].away - {s.conns[c].id}
    requires Fewer(s.rooms[ref].pending, q.pending)
    requires t.conns == ClearRoom(s.conns, c, ref) && t.rooms == s.rooms[ref := q] && t.usedIds == s.usedIds
    ensures Linking(t)
  {
    hide LinkInv;
    Exit(s.conns, s.rooms, s.usedIds, ref, q, c, s.conns[c].(room := None), s.conns[c].id);
  }

  lemma KickActiveLinks(s: State, ref: Ref, u: UserId)
    requires Linking(s) && Registered(s, ref) && u in s.rooms[ref].clients && Roster(s.rooms[ref])
    ensures Linking(KickActive(s, ref, u))
  {
    var r := s.rooms[ref];
    ClientsExist(s, ref);
    assert s.conns[r.clients[u]].room == Some(ref);
    hide LinkInv, Kicked, Roster;
    KickedFields(r, u);
    Apart(r, u);
    NothingToDrop(r.away, u);
    DepartLinks(s, KickActive(s, ref, u), r.clients[u], ref, Kicked(r, u));
  }

  lemma KickAwayLinks(s: State, ref: Ref, u: UserId)
    requires Linking(s) && ref in s.rooms && u !in s.rooms[ref].clients
    ensures Linking(KickAway(s, ref, u))
  {
    hide LinkInv, Kicked, TokensOf, Refs;
    KickedFields(s.rooms[ref], u);
    Unseat(s.conns, s.rooms, s.usedIds, ref, Kicked(s.rooms[ref], u), u);
  }

  lemma LeaveLinks(s: State, c: ConnId, d: Option<ConnId>)
    requires Linking(s) && InRoom(s, c) && Active(s, c) && (d.Some? ==> d.value in s.conns)
    ensures var ref := s.conns[c].room.value;
            Linking(LeftRoom(s, c, ref, Left(s.rooms[ref], s.conns, c, s.conns[c].id, d)))
  {
    hide LinkInv, Left, Dead;
    var ref := s.conns[c].room.value;
    LeftFields(s.rooms[ref], s.conns, c, s.conns[c].id, d);
    var q := Left(s.rooms[ref], s.conns, c, s.conns[c].id, d);
    DepartLinks(s, LeftRoom(s, c, ref, q), c, ref, q);
  }

  lemma DetachLinks(s: State, c: ConnId, token: Token, now: Time)
    requires Linking(s) && InRoom(s, c) && Active(s, c)
    ensures Linking(Detached(s, c, s.conns[c].room.value, token, now))
  {
    hide LinkInv, Disconnected;
    var ref := s.conns[c].room.value;
    var k := s.conns[c];
    var t := Detached(s, c, ref, token, now);
    DisconnectedFields(s.rooms[ref], c, k.id, k.name, now);
    Exit(s.conns, s.rooms, s.usedIds, ref, t.rooms[ref], c, t.conns[c], k.id);
  }

  lemma ConsumeLinks(s: State, c: ConnId, ref: Ref)
    requires Linking(s) && c in s.attempts && ref in s.rooms && Succeeds(s, c, ref) && s.conns[c].pendingRoom.None?
    ensures Linking(Consumed(s, c, ref))
  {
    var u := s.attempts[c].session.user;
    SeatIsHome(s, ref, u);
    hide LinkInv, Rejoined;
    var t := Consumed(s, c, ref);
    RejoinedFields(s.rooms[ref], t.conns, c, u);
    assert Enters(s.conns, s.rooms, s.usedIds, ref, t.rooms[ref], c, t.conns[c], u);
    Enter(s.conns, s.rooms, s.usedIds, ref, t.rooms[ref], c, t.conns[c], u);
  }

  lemma ExpireLinks(s: State, x: Session, ref: Ref, d: Option<ConnId>)
    requires Linking(s) && ref in s.rooms && (d.Some? ==> d.value in s.conns)
    ensures Linking(ExpiredIn(s, x, ref, d))
  {
    hide LinkInv, Expired, Dead;
    ExpiredFields(s.rooms[ref], s.conns, x.user, d);
    Unseat(s.conns, s.rooms, s.usedIds, ref, Expired(s.rooms[ref], s.conns, x.user, d), x.user);
  }

  /** Everyone who points at the room is released with it. */
  lemma ReleaseForgets(s: State, ref: Ref)
    requires Linking(s) && ref in s.rooms
    ensures Forgotten(s.conns, ReleaseAll(s.conns, s.rooms[ref], ref), ref)
  {
    hide Linked, Applicants, OneHome, Known;
    var r := s.rooms[ref];
    forall c | c in s.conns && s.conns[c].room == Some(ref) ensures c in r.clients.Values {
      assert ActiveIn(s.rooms, ref, s.conns[c].id, c);
      assert r.clients[s.conns[c].id] == c;
    }
  }

  lemma DeleteLinks(s: State, ref: Ref)
    requires Linking(s) && ref in s.rooms && Deserted(s.rooms[ref])
    ensures Linking(Deleted(s, ref))
  {
    ReleaseForgets(s, ref);
    hide LinkInv, ReleaseAll;
    Vacate(s.conns, s.rooms, s.usedIds, ReleaseAll(s.conns, s.rooms[ref], ref), ref, s.rooms[ref].(pending := map[]));
  }

  lemma CloseLinks(s: State, ref: Ref)
    requires Linking(s) && ref in s.rooms
    ensures Linking(DoCloseRoom(s, ref))
  {
    ReleaseForgets(s, ref);
    hide LinkInv, ReleaseAll, Refs;
    Vacate(s.conns, s.rooms, s.usedIds, ReleaseAll(s.conns, s.rooms[ref], ref), ref, Vacated(s.rooms[ref]));
  }

  lemma UnregisterRegistry(s: State, t: State, ref: Ref, q: Room)
    requires RegInv(s) && ClosingInv(s) && Registered(s, ref) && Vacant(q) && q.code == s.rooms[ref].code
    requires t.rooms == s.rooms[ref := q] && t.registry == s.registry - {q.code}
    requires t.closing <= s.closing && ref !in t.closing
    ensures RegInv(t) && ClosingInv(t)
  {
    assert forall x :: Registered(t, x) <==> Registered(s, x) && x != ref;
  }
}
