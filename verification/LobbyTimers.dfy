/**
 Reconnects and the server's own timers keep the whole invariant, critical
 section by critical section.
 */
module LobbyTimers {
  import opened Base
  import opened Rooms
  import opened Links
  import opened Lobby
  import opened LobbyRooms
  import opened LobbyLinks
  import opened Tokens
  import opened LobbyRuns

  /** Rooms, connections and the registry are where they were. */
  ghost predicate TokensOnly(s: State, t: State)
  {
    t.conns == s.conns && t.rooms == s.rooms && t.registry == s.registry && t.closing == s.closing
    && t.usedIds == s.usedIds
  }

  lemma TokensOnlyKeeps(s: State, t: State)
    requires Inv(s) && TokensOnly(s, t) && TokensOk(t)
    ensures Inv(t)
  {
    hide RegInv, RoomsInv, LinkInv, ClosingInv, TokensOk;
    SessionsElsewhere(s, t);
  }

  lemma ClaimKeeps(s: State, c: ConnId, v: Token, now: Time)
    requires Inv(s) && Ready(s, c)
    ensures Inv(DoClaim(s, c, v, now))
  {
    hide Inv, TokensOk, RoomsOk, ClosingInv;
    if ClaimOk(s, c, v, now) {
      InvParts(s);
      ClaimTokens(s, c, v, now);
      TokensOnlyKeeps(s, Claimed(s, c, v));
    }
  }

  lemma InvParts(s: State)
    requires Inv(s)
    ensures RoomsOk(s) && ClosingInv(s) && TokensOk(s)
  {
    hide RoomsOk, ClosingInv, TokensOk;
  }

  lemma LookupKeeps(s: State, c: ConnId)
    requires Inv(s) && c in s.attempts
    ensures Inv(DoLookup(s, c))
  {
    hide Inv, TokensOk, RoomsOk, ClosingInv;
    InvParts(s);
    if s.attempts[c].session.code !in s.registry {
      LookupTokens(s, c);
      assert TokensOnly(s, DoLookup(s, c));
      hide TokensOnly, DoLookup;
      TokensOnlyKeeps(s, DoLookup(s, c));
    }
  }

  /** Dropping the token of a reconnect that found no room changes nothing:
      the token went when the room did. */
  lemma DropTokenIdle(s: State, c: ConnId)
    requires TokensOk(s) && c in s.attempts && s.attempts[c].phase.NoRoom?
    ensures Revoke(s, {s.attempts[c].token}) == s
  {
    hide TokenInv, HistoryInv, OneHolder, ClaimsHeld;
    assert Attempting(s, c);
    NothingToDrop(s.sessions, s.attempts[c].token);
    assert Refs(s.sessions, {s.attempts[c].token}) == {};
    assert s.revoked + {} == s.revoked;
  }

  lemma AttemptMayHost(s: State, c: ConnId)
    requires TokensOk(s) && c in s.attempts
    ensures c in s.conns && s.conns[c].pendingRoom.None? && (s.attempts[c].session.isHost ==> s.conns[c].allow)
  {
    hide TokenInv, HistoryInv, OneHolder, ClaimsHeld;
    assert Attempting(s, c);
  }

  lemma ConsumeKeeps(s: State, c: ConnId, ref: Ref)
    requires Inv(s) && c in s.attempts && ref in s.rooms && ref !in s.closing && Succeeds(s, c, ref)
    requires s.rooms[ref].code == s.attempts[c].session.code
    ensures Inv(Consumed(s, c, ref))
  {
    hide RegInv, RoomsInv, LinkInv, ClosingInv, TokensOk, Rejoined, Dead;
    SuccessIsOwn(s, c, ref);
    AttemptMayHost(s, c);
    var t := Consumed(s, c, ref);
    RejoinedFields(s.rooms[ref], t.conns, c, s.attempts[c].session.user);
    assert RoomsInv(t) by { ConsumeRooms(s, c, ref); }
    assert Linking(t) by { ConsumeLinks(s, c, ref); }
    assert RegInv(t) && ClosingInv(t) by { RegPut(s, t, ref, t.rooms[ref]); ClosingPut(s, t, ref, t.rooms[ref]); }
    assert TokensOk(t) by { ConsumeTokens(s, c, ref); }
  }

  lemma DoConsumeKeeps(s: State, c: ConnId, ref: Ref)
    requires Inv(s) && c in s.attempts && ref in s.rooms && ref !in s.closing
    requires s.rooms[ref].code == s.attempts[c].session.code
    ensures Inv(DoConsume(s, c, ref))
  {
    hide Inv, TokensOk, RoomsOk, ClosingInv;
    if Succeeds(s, c, ref) {
      ConsumeKeeps(s, c, ref);
    } else {
      InvParts(s);
      PhaseTokens(s, DoConsume(s, c, ref), c, Refused);
      TokensOnlyKeeps(s, DoConsume(s, c, ref));
    }
  }

  lemma ReleaseKeeps(s: State, c: ConnId)
    requires Inv(s) && c in s.attempts
    ensures Inv(DoRelease(s, c))
  {
    hide Inv, TokensOk, RoomsOk, ClosingInv;
    InvParts(s);
    ReleaseTokens(s, c);
    TokensOnlyKeeps(s, DoRelease(s, c));
  }

  lemma TakeKeeps(s: State, now: Time)
    requires Inv(s)
    ensures Inv(DoTake(s, now))
  {
    hide Inv, TokensOk, RoomsOk, ClosingInv, ExpiredTokens;
    InvParts(s);
    TakeTokens(s, now);
    TokensOnlyKeeps(s, DoTake(s, now));
  }

  lemma ExpireThins(s: State, x: Session, ref: Ref, d: Option<ConnId>)
    requires ref in s.rooms && (d.Some? ==> d.value in s.conns)
    ensures Thinned(s, ExpiredIn(s, x, ref, d), {})
  {
    hide Expired, Refs;
    ExpiredFields(s.rooms[ref], s.conns, x.user, d);
    NoRefs(s.sessions);
  }

  lemma ExpireUnseats(s: State, x: Session, ref: Ref, d: Option<ConnId>)
    requires ref in s.rooms && x.user in s.rooms[ref].away && (d.Some? ==> d.value in s.conns)
    requires Untokened(s, x.user)
    ensures Unseated(s, ExpiredIn(s, x, ref, d), ref, x.user, {})
  {
    hide Expired;
    ExpiredFields(s.rooms[ref], s.conns, x.user, d);
  }

  lemma ExpiredInKeeps(s: State, x: Session, d: Option<ConnId>)
    requires Inv(s) && x in s.expiring && x.code in s.registry && s.registry[x.code] in s.rooms
    requires s.registry[x.code] !in s.closing && x.user in s.rooms[s.registry[x.code]].away && Untokened(s, x.user)
    requires Picked(s, s.rooms[s.registry[x.code]].clients, d)
    ensures Inv(ExpiredIn(s, x, s.registry[x.code], d))
  {
    hide RegInv, RoomsInv, LinkInv, ClosingInv, TokensOk, Expired, Dead, Deputy, Thinned, Unseated, Untokened;
    var ref := s.registry[x.code];
    SeatFiled(s, ref, x.user);
    ExpiredFields(s.rooms[ref], s.conns, x.user, d);
    var t := ExpiredIn(s, x, ref, d);
    assert RoomsInv(t) by { ExpireRooms(s, x, ref, d); }
    assert Linking(t) by { ExpireLinks(s, x, ref, d); }
    assert RegInv(t) && ClosingInv(t) by { RegistryPut(s, t, ref, t.rooms[ref]); }
    assert TokensOk(t) by {
      ExpireThins(s, x, ref, d);
      ExpireUnseats(s, x, ref, d);
      hide ExpiredIn;
      UnseatTokens(s, t, ref, x.user, {});
    }
  }

  /** The seat went another way, so only the errand ends. */
  lemma StaleExpiry(s: State, x: Session)
    requires Inv(s) && x in s.expiring
    requires !(x.code in s.registry && s.registry[x.code] in s.rooms && x.user in s.rooms[s.registry[x.code]].away)
    ensures Inv(s.(expiring := s.expiring - {x}))
  {
    hide Inv, TokensOk, RoomsOk, ClosingInv, Backed, Covered, Thinned;
    var t := s.(expiring := s.expiring - {x});
    InvParts(s);
    TokensBacked(s);
    StaleBacked(s, t);
    StaleCovered(s, x);
    StaleThins(s, x);
    ThinTokens(s, t, {});
    TokensOnlyKeeps(s, t);
  }

  lemma StaleThins(s: State, x: Session)
    ensures Thinned(s, s.(expiring := s.expiring - {x}), {})
  {
    hide Refs;
    NoRefs(s.sessions);
  }

  lemma StaleBacked(s: State, t: State)
    requires Backed(s) && t == s.(expiring := t.expiring)
    ensures Backed(t)
  {
  }

  lemma StaleCovered(s: State, x: Session)
    requires RoomsOk(s) && TokensOk(s)
    requires !(x.code in s.registry && s.registry[x.code] in s.rooms && x.user in s.rooms[s.registry[x.code]].away)
    ensures Covered(s.(expiring := s.expiring - {x}))
  {
    hide RegInv, RoomsInv, LinkInv, Backed, Separate, Carried, Issued, AttemptInv, HistoryInv, HasToken;
    SeatsFiled(s);
  }

  lemma DoExpireKeeps(s: State, x: Session, d: Option<ConnId>)
    requires Inv(s) && x in s.expiring && x.code in s.registry && s.registry[x.code] in s.rooms
    requires s.registry[x.code] !in s.closing && Picked(s, s.rooms[s.registry[x.code]].clients, d)
    requires x.user in s.rooms[s.registry[x.code]].away ==> Untokened(s, x.user)
    ensures Inv(DoExpire(s, x, d))
  {
    hide Inv, Deputy;
    if x.user in s.rooms[s.registry[x.code]].away {
      ExpiredInKeeps(s, x, d);
    } else {
      StaleExpiry(s, x);
    }
  }

  // ---- a room ends ----

  /** Nobody with a reconnect in flight is an applicant or a member. */
  lemma ReleaseStays(s: State, ref: Ref)
    requires TokensOk(s) && ref in s.rooms
    ensures var conns' := ReleaseAll(s.conns, s.rooms[ref], ref);
            conns'.Keys == s.conns.Keys && forall c :: c in s.conns ==> Stays(s.conns[c], conns'[c], c in s.attempts)
  {
    hide TokenInv, HistoryInv, OneHolder, ClaimsHeld;
    forall c | c in s.attempts ensures c in s.conns && s.conns[c].pendingRoom.None? { assert Attempting(s, c); }
  }

  lemma DeleteThins(s: State, ref: Ref)
    requires TokensOk(s) && ref in s.rooms
    ensures Thinned(s, Deleted(s, ref), {})
  {
    hide TokensOk, ReleaseAll, Refs, Stays;
    ReleaseStays(s, ref);
    NoRefs(s.sessions);
  }

  lemma DeleteKeeps(s: State, ref: Ref)
    requires Inv(s) && Registered(s, ref) && Deserted(s.rooms[ref])
    ensures Inv(Deleted(s, ref))
  {
    hide RegInv, RoomsInv, LinkInv, ClosingInv, TokensOk, Thinned, ReleaseAll;
    var t := Deleted(s, ref);
    ClosingDead(s, ref);
    assert RoomsInv(t) by { DeleteRooms(s, ref); }
    assert Linking(t) by { DeleteLinks(s, ref); }
    assert RegInv(t) && ClosingInv(t) by { UnregisterRegistry(s, t, ref, t.rooms[ref]); }
    assert TokensOk(t) by { DeleteThins(s, ref); UnregisterTokens(s, t, ref, {}); }
  }

  function TokensUnder(s: State, code: Code): set<Token>
  {
    set t | t in s.sessions && s.sessions[t].session.code == code
  }

  lemma CloseThins(s: State, ref: Ref)
    requires TokensOk(s) && ref in s.rooms
    ensures Thinned(s, DoCloseRoom(s, ref), TokensUnder(s, s.rooms[ref].code))
  {
    hide TokensOk, ReleaseAll, Refs, Stays;
    ReleaseStays(s, ref);
    assert (set t | t in s.sessions && s.sessions[t].session.code == s.rooms[ref].code) == TokensUnder(s, s.rooms[ref].code);
    hide TokensUnder;
  }

  /** Closing leaves nobody behind: no token, no seat, no client, no entry. */
  lemma CloseKeeps(s: State, ref: Ref)
    requires Inv(s) && ref in s.closing && ref in s.rooms
    ensures Inv(DoCloseRoom(s, ref))
  {
    hide RegInv, RoomsInv, LinkInv, ClosingInv, TokensOk, Thinned, ReleaseAll, Refs;
    var t := DoCloseRoom(s, ref);
    ClosingRegistered(s, ref);
    assert RoomsInv(t) by { CloseRooms(s, ref); }
    assert Linking(t) by { CloseLinks(s, ref); }
    assert RegInv(t) && ClosingInv(t) by { UnregisterRegistry(s, t, ref, t.rooms[ref]); }
    assert TokensOk(t) by {
      CloseThins(s, ref);
      UnregisterTokens(s, t, ref, TokensUnder(s, s.rooms[ref].code));
    }
  }

  lemma ClosingRegistered(s: State, ref: Ref)
    requires ClosingInv(s) && ref in s.closing
    ensures Registered(s, ref) && Dead(s.rooms[ref])
  {
  }
}
