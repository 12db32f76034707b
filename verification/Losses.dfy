/**
 What the code can lose, wherever the circumstances allow it: a reconnect that
 leaves a room nobody can host, and a snapshot that forgets the host or owner
 because it was taken while their expiry was under way.
 */
module Losses {
  import opened Base
  import opened Text
  import opened Tracks
  import opened Playback
  import opened Rooms
  import opened Links
  import opened Lobby
  import opened LobbyRooms
  import opened Tokens
  import opened LobbyRuns
  import opened LobbyTimers
  import opened Runs
  import opened Records
  import opened Restart
  import opened Snapshots
  import opened RestartSafety
  import opened Reboot
  import opened Safety
  import opened Journeys

  // ---- a room nobody can host ----

  /** The connected host h, guests who may not host, and one of them, a, away with
      a token v that is still good; d may not host either. */
  ghost predicate Waning(s: State, h: ConnId, d: ConnId, ref: Ref, a: UserId, v: Token, now: Time)
  {
    && Hosting(s, h) && s.conns[h].room == Some(ref) && s.rooms[ref].clients.Keys != {s.conns[h].id}
    && NoCandidate(s.rooms[ref].clients - {s.conns[h].id}, s.conns)
    && s.rooms[ref].away.Keys == {a} && v in s.sessions && s.sessions[v].session == s.rooms[ref].away[a]
    && !s.sessions[v].claimed && !s.sessions[v].session.isHost && now - s.sessions[v].session.at <= GRACE
    && Ready(s, d) && d != h && s.conns[d].room.None? && s.conns[d].pendingRoom.None? && !s.conns[d].allow
  }

  /** The host leaves: the room has no host, but it waits for a. */
  lemma HostLeaves(s: State, t: State, h: ConnId, d: ConnId, ref: Ref, a: UserId, v: Token, now: Time)
    requires Inv(s) && Waning(s, h, d, ref, a, v, now) && t == DoLeave(s, h, None) && v != s.conns[h].token.value
    requires s.conns[h].token.Some? && Active(s, h)
    ensures ref in t.rooms && t.rooms[ref].hostId.None? && t.rooms[ref].away.Keys == {a} && a !in t.rooms[ref].clients
    ensures t.rooms[ref].code == s.rooms[ref].code && t.registry == s.registry && t.closing == s.closing
            && t.attempts == s.attempts
    ensures v in t.sessions && t.sessions[v] == s.sessions[v] && d in t.conns && t.conns[d] == s.conns[d]
  {
    hide Inv, Left, Refs, NoCandidate, RoomInv;
    var r := s.rooms[ref];
    var u := s.conns[h].id;
    ActiveAlways(s, h);
    SidesApart(s, ref);
    LeftFields(r, s.conns, h, u, None);
    LeftSeat(r, s.conns, h, u);
    NothingToDrop(r.away, u);
  }

  lemma LeftSeat(r: Room, conns: Conns, c: ConnId, u: UserId)
    requires r.host == Some(c) && u !in r.away && r.away != map[]
    ensures Left(r, conns, c, u, None).hostId.None?
  {
    hide WithoutUser, Unsuggest, FlagHost;
    NothingToDrop(r.away, u);
  }

  /** a comes back through d: nobody can host, and nothing closes the room. */
  lemma GuestReturns(t: State, f: State, d: ConnId, ref: Ref, a: UserId, v: Token, now: Time)
    requires ref in t.rooms && t.rooms[ref].hostId.None? && t.rooms[ref].away.Keys == {a} && a !in t.rooms[ref].clients
    requires d in t.conns && v in t.sessions && ClaimOk(t, d, v, now) && t.sessions[v].session.user == a
             && !t.conns[d].allow
    requires ref in DoClaim(t, d, v, now).rooms && d in DoClaim(t, d, v, now).attempts
             && f == DoConsume(DoClaim(t, d, v, now), d, ref)
    ensures ref in f.rooms && Dead(f.rooms[ref]) && f.rooms[ref].code == t.rooms[ref].code && f.registry == t.registry
            && f.closing == t.closing
  {
    hide Rejoined, Dead;
    var e := DoClaim(t, d, v, now);
    assert Succeeds(e, d, ref);
    RejoinedDead(t.rooms[ref], f.conns, d, a);
    RejoinedFields(t.rooms[ref], f.conns, d, a);
  }

  /** From every such state the run is regular, and it ends in a reachable state
      whose room is dead, registered, and not about to be closed. */
  lemma RoomCanDie(s: State, h: ConnId, d: ConnId, ref: Ref, a: UserId, v: Token, now: Time) returns (f: State)
    requires Reachable(s) && Waning(s, h, d, ref, a, v, now)
    ensures Reachable(f) && Registered(f, ref) && Dead(f.rooms[ref]) && ref !in f.closing
  {
    hide Reachable, Inv, DoLeave, DoClaim, DoConsume, NoCandidate, Dead, Enabled, Proper, Next;
    ReachableIsSound(s);
    ActiveAlways(s, h);
    ActiveTokens(s, h, v);
    var t := DoLeave(s, h, None);
    DeputyNone(s, h, ref);
    ReachableStep(s, Leave(h, None));
    HostLeaves(s, t, h, d, ref, a, v, now);
    assert ClaimOk(t, d, v, now);
    SeatBelongs(s, ref, a);
    var e := DoClaim(t, d, v, now);
    ClaimStep(t, d, v, now);
    ReachableStep(t, Claim(d, v, now));
    ClaimedFacts(t, e, d, v, now, ref);
    f := DoConsume(e, d, ref);
    ConsumeStep(e, d, ref);
    ReachableStep(e, Consume(d, ref));
    GuestReturns(t, f, d, ref, a, v, now);
  }

  lemma ClaimStep(t: State, d: ConnId, v: Token, now: Time)
    requires Ready(t, d)
    ensures Enabled(t, Claim(d, v, now)) && Proper(t, Claim(d, v, now))
            && Next(t, Claim(d, v, now)) == DoClaim(t, d, v, now)
  {
    hide DoClaim;
  }

  lemma ConsumeStep(e: State, d: ConnId, ref: Ref)
    requires d in e.attempts && e.attempts[d].phase.Holding? && ref !in e.closing
    requires ref in e.rooms && e.rooms[ref].code == e.attempts[d].session.code
    ensures Enabled(e, Consume(d, ref)) && Proper(e, Consume(d, ref))
            && Next(e, Consume(d, ref)) == DoConsume(e, d, ref)
  {
    hide DoConsume;
  }

  lemma ClaimedFacts(t: State, e: State, d: ConnId, v: Token, now: Time, ref: Ref)
    requires d in t.conns && ClaimOk(t, d, v, now) && e == DoClaim(t, d, v, now) && ref in t.rooms
    ensures d in e.attempts && e.attempts[d].phase.Holding? && e.attempts[d].session == t.sessions[v].session
    ensures e.rooms == t.rooms && e.closing == t.closing && e.registry == t.registry
  {
  }

  lemma DeputyNone(s: State, h: ConnId, ref: Ref)
    requires InRoom(s, h) && s.conns[h].room == Some(ref)
             && NoCandidate(s.rooms[ref].clients - {s.conns[h].id}, s.conns)
    ensures Enabled(s, Leave(h, None)) && Proper(s, Leave(h, None)) && Next(s, Leave(h, None)) == DoLeave(s, h, None)
  {
    hide NoCandidate, DoLeave;
  }

  lemma SeatBelongs(s: State, ref: Ref, a: UserId)
    requires Inv(s) && ref in s.rooms && a in s.rooms[ref].away
    ensures s.rooms[ref].away[a].user == a && s.rooms[ref].away[a].code == s.rooms[ref].code && Registered(s, ref)
  {
    hide RegInv, RoomsInv, LinkInv, ClosingInv, TokensOk;
    SeatFiled(s, ref, a);
  }

  // ---- a snapshot that forgets ----

  /** w is away, and cleanup finds the grace period over. */
  ghost predicate Overdue(s: State, ref: Ref, w: UserId, now: Time)
  {
    Registered(s, ref) && w in s.rooms[ref].away && now - s.rooms[ref].away[w].at > GRACE
  }

  /** Between the two halves of cleanup, no token is left for w. */
  lemma TakenLeavesNoRow(s: State, t: State, ref: Ref, w: UserId, now: Time, rec: Record)
    requires Inv(s) && Overdue(s, ref, w, now) && t == DoTake(s, now) && Snapped(rec, t, s.rooms[ref].code)
    ensures !HasRow(rec.rows, w)
  {
    hide Inv, RoomsOk, ClosingInv, TokensOk, Refs, SavedAway, Parted;
    InvParts(s);
    var code := s.rooms[ref].code;
    SeatFiled(s, ref, w);
    TokensBacked(s);
    forall x | x in rec.rows ensures x.seat.user != w {
      assert x in Elements(rec.rows);
      if x in StoredRows(t.sessions, code) {
        var v :| v in t.sessions && t.sessions[v].session.code == code && x == StoredRow(t.sessions, v);
        assert Stands(s.sessions[v].session, s.rooms, s.registry);
        assert v !in ExpiredTokens(s, now);
      } else {
        var u :| u in s.rooms[ref].clients && x == LiveRow(s.rooms[ref], s.conns, u);
      }
    }
  }

  /** A record taken then forgets w as soon as anybody else is connected. */
  lemma TakenIsForgotten(s: State, t: State, ref: Ref, w: UserId, u: UserId, now: Time, rec: Record)
    requires Inv(s) && Overdue(s, ref, w, now) && t == DoTake(s, now) && Snapped(rec, t, s.rooms[ref].code)
    requires u in s.rooms[ref].clients
    ensures !Kept(rec, w) && u in rec.away && Kept(rec, u) == HasRow(rec.rows, u)
  {
    hide Inv, Parted, HasRow;
    TakenLeavesNoRow(s, t, ref, w, now, rec);
    var x := LiveRow(t.rooms[ref], t.conns, u);
    assert x in LiveRows(t.rooms[ref], t.conns);
    assert x in Elements(rec.rows);
  }

  lemma ClientRow(t: State, ref: Ref, u: UserId, rec: Record)
    requires Inv(t) && Registered(t, ref) && Snapped(rec, t, t.rooms[ref].code) && u in t.rooms[ref].clients
    ensures Kept(rec, u)
  {
    hide Inv, Parted;
    var c := t.rooms[ref].clients[u];
    assert Bears(t, t.conns[c].token.value, ref, u);
    BearerFacts(t, t.conns[c].token.value, ref, u);
    var x := LiveRow(t.rooms[ref], t.conns, u);
    assert x in LiveRows(t.rooms[ref], t.conns);
    assert x in Elements(rec.rows);
  }

  /** From every state in which the absent host or the waiting owner is overdue
      and somebody is connected, cleanup's first half leads to a reachable state
      whose snapshot restores a room with a broken host seat. */
  lemma SeatCanBeLost(s: State, t: State, ref: Ref, w: UserId, u: UserId, now: Time, rec: Record, conns: Conns,
                      flushed: Option<Time>, later: Time, nowMs: int)
    requires Reachable(s) && Overdue(s, ref, w, now) && u in s.rooms[ref].clients
    requires s.rooms[ref].hostId == Some(w) || s.rooms[ref].owner == Some(w)
    requires t == DoTake(s, now) && Snapped(rec, t, s.rooms[ref].code)
    ensures Reachable(t) && !HostInv(Restored(rec, flushed, later, nowMs), conns)
  {
    hide Reachable, Inv, Snapped, HostInv, RoomInv, Kept, Restored, Refs, IsRecord, Tokened;
    ReachableStep(s, Take(now));
    ReachableIsSound(s);
    ReachableIsSound(t);
    TakenIsForgotten(s, t, ref, w, u, now, rec);
    ClientRow(t, ref, u, rec);
    InvRoom(t, ref);
    assert Tokened(t.rooms[ref], t.conns)
           && IsRecord(rec, t.rooms[ref], t.conns, StoredRows(t.sessions, t.rooms[ref].code)) by {
      SnappedParts(t, rec, ref);
    }
    HostSurvives(rec, t.rooms[ref], t.conns, conns, StoredRows(t.sessions, t.rooms[ref].code), flushed, later, nowMs);
  }

  lemma SnappedParts(t: State, rec: Record, ref: Ref)
    requires Registered(t, ref) && Snapped(rec, t, t.rooms[ref].code)
    ensures Tokened(t.rooms[ref], t.conns)
            && IsRecord(rec, t.rooms[ref], t.conns, StoredRows(t.sessions, t.rooms[ref].code))
  {
    hide IsRecord, Tokened;
  }
}
