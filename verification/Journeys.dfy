/**
 What several steps undo of each other: a disconnect and a reconnect, a visit
 from application to departure, a suggestion that is queued and taken out again;
 and what a departure leaves behind.
 */
module Journeys {
  import opened Base
  import opened Text
  import opened Tracks
  import opened Playback
  import opened Rooms
  import opened Lobby
  import opened Links
  import opened LobbyRooms
  import opened Tokens
  import opened LobbyRuns
  import opened Runs

  // ---- disconnecting and coming back ----

  lemma {:induction false} MarkTwice(us: seq<UserInfo>, on: set<UserId>, host: Option<UserId>, u: UserId)
    requires WellListed(us, on, host) && u in on
    ensures MarkUser(MarkUser(us, u, false), u, true) == us
  {
    if us != [] {
      if us[0].id == u {
        assert MarkUser(us, u, false)[1..] == us[1..];
      } else {
        MarkTwice(us[1..], on, host, u);
        assert MarkUser(us, u, false)[1..] == MarkUser(us[1..], u, false);
      }
    }
  }

  lemma {:induction false} FlagSame(us: seq<UserInfo>, on: set<UserId>, host: Option<UserId>)
    requires WellListed(us, on, host)
    ensures FlagHost(us, host) == us
  {
    if us != [] { FlagSame(us[1..], on, host); }
  }

  /** The members and roles of a room, with u's connection replaced. */
  ghost predicate SameButFor(r: Room, q: Room, u: UserId, d: ConnId)
  {
    && q.clients == r.clients[u := d] && q.away == r.away && q.users == r.users && q.pending == r.pending
    && q.hostId == r.hostId && q.hostAway == r.hostAway && q.owner == r.owner
    && q.host == (if r.hostId == Some(u) then Some(d) else r.host)
    && q.suggestions == r.suggestions && q.notices == r.notices && q.code == r.code
    && q.play == r.play.(lastHostSeq := q.play.lastHostSeq)
  }

  /** Coming back undoes dropping out: the same members, flags, roles,
      suggestions and playback, the new connection in place of the old one. Only
      a hostless room may gain a host this way. */
  lemma ReturnUndoesDisconnect(r: Room, conns: Conns, conns': Conns, c: ConnId, d: ConnId, u: UserId, name: Str,
                               now: Time)
    requires RoomInv(r, conns) && Keyed(r, conns) && u in r.clients && r.clients[u] == c
    requires d in conns' && conns'[d].id == u && (r.hostId == Some(u) ==> conns'[d].allow)
    requires r.hostId.Some? || !conns'[d].allow
    ensures SameButFor(r, Rejoined(Disconnected(r, c, u, name, now), conns', d, u), u, d)
  {
    hide RoomInv, Roster, MailInv, MarkUser, FlagHost, Keyed;
    HostPointer(r, conns, c, u);
    RolesOf(r, conns, u);
    ReturnedList(r, u);
    ReturnedMaps(r, c, d, u, name, now);
  }

  /** What the invariant says of an active member's roles. */
  lemma RolesOf(r: Room, conns: Conns, u: UserId)
    requires RoomInv(r, conns) && u in r.clients
    ensures Roster(r) && MailInv(r) && u !in r.away && r.owner != Some(u)
    ensures r.hostId == Some(u) ==> r.hostAway.None?
  {
    hide Roster, MailInv;
    Apart(r, u);
    assert !Deserted(r);
  }

  lemma ReturnedList(r: Room, u: UserId)
    requires Roster(r) && u in r.clients
    ensures MarkUser(MarkUser(r.users, u, false), u, true) == r.users && FlagHost(r.users, r.hostId) == r.users
  {
    MarkTwice(r.users, r.clients.Keys, r.hostId, u);
    FlagSame(r.users, r.clients.Keys, r.hostId);
  }

  lemma PutBack<K, V>(m: map<K, V>, k: K, v: V)
    ensures (m - {k})[k := v] == m[k := v]
    ensures k !in m ==> m[k := v] - {k} == m
  {
  }

  lemma ReturnedMaps(r: Room, c: ConnId, d: ConnId, u: UserId, name: Str, now: Time)
    requires u in r.clients && u !in r.away && MailInv(r)
    ensures (r.clients - {u})[u := d] == r.clients[u := d]
    ensures r.away[u := Session(u, name, r.code, r.host == Some(c), now)] - {u} == r.away
    ensures r.notices - {u} == r.notices
  {
    PutBack(r.clients, u, d);
    PutBack(r.away, u, Session(u, name, r.code, r.host == Some(c), now));
    NoticesOfAbsent(r, u);
    hide MailInv;
    NothingToDrop(r.notices, u);
  }

  lemma NoticesOfAbsent(r: Room, u: UserId)
    requires MailInv(r) && u !in r.away
    ensures u !in r.notices
  {
    hide By;
  }

  /** The claim a new connection makes within the grace period is granted, and
      the seat is there to be taken. */
  lemma SeatCanBeReclaimed(s: State, c: ConnId, d: ConnId, token: Token, now: Time, later: Time)
    requires InRoom(s, c) && Active(s, c) && Ready(s, d) && d != c && s.conns[d].room.None?
             && s.conns[d].pendingRoom.None?
    requires (RoomOf(s, c).host == Some(c) ==> s.conns[d].allow) && later - now <= GRACE
    ensures var ref := s.conns[c].room.value; var t := Detached(s, c, ref, token, now);
            && d in t.conns && ClaimOk(t, d, token, later)
            && var e := Claimed(t, d, token); d in e.attempts && ref in e.rooms && Succeeds(e, d, ref)
  {
    hide MarkUser;
  }

  lemma ReclaimedState(s: State, c: ConnId, d: ConnId, token: Token, now: Time)
    requires InRoom(s, c) && d in s.conns && d != c && d !in s.attempts && token !in s.sessions
    ensures var ref := s.conns[c].room.value; var u := s.conns[c].id;
            var e := Claimed(Detached(s, c, ref, token, now), d, token);
            && d in e.attempts && ref in e.rooms && d in e.conns
            && var f := Consumed(e, d, ref);
               && d in f.conns && ref in f.rooms && f.conns[d].id == u && f.conns[d].room == Some(ref)
               && f.conns[d].name == s.conns[c].name && f.conns[d].token == Some(token)
               && f.conns[d].allow == s.conns[d].allow
               && f.rooms[ref] == Rejoined(Disconnected(s.rooms[ref], c, u, s.conns[c].name, now), f.conns, d, u)
               && f.sessions == s.sessions && f.attempts == s.attempts && f.registry == s.registry
  {
    hide Disconnected, Rejoined;
    DisconnectedFields(s.rooms[s.conns[c].room.value], c, s.conns[c].id, s.conns[c].name, now);
    var q := Disconnected(s.rooms[s.conns[c].room.value], c, s.conns[c].id, s.conns[c].name, now);
    var x := Entry(q.away[s.conns[c].id], s.nextSession, true);
    PutBack(s.sessions, token, x);
    PutBack(s.attempts, d, Attempt(token, x.session, x.ref, Holding));
  }

  /** Round trip: a member who drops out and reconnects within the grace period
      on another connection finds the room as it was, keeps ID, name and token, and
      no token is left in the table. */
  lemma ReconnectRestores(s: State, c: ConnId, d: ConnId, now: Time, later: Time, spare: Token, t: State, e: State,
                          f: State)
    requires Inv(s) && InRoom(s, c) && Ready(s, d) && d != c && s.conns[d].room.None? && s.conns[d].pendingRoom.None?
    requires RoomOf(s, c).hostId.Some? && (RoomOf(s, c).hostId == Some(s.conns[c].id) ==> s.conns[d].allow)
             && later - now <= GRACE
    requires s.conns[c].token.Some? && t == DoDetach(s, c, now, spare) && d in t.conns
    requires e == DoClaim(t, d, s.conns[c].token.value, later)
    requires d in e.attempts && s.conns[c].room.value in e.rooms && f == DoConsume(e, d, s.conns[c].room.value)
    ensures var ref := s.conns[c].room.value;
            && ref in f.rooms && SameButFor(s.rooms[ref], f.rooms[ref], s.conns[c].id, d)
            && d in f.conns && f.conns[d].id == s.conns[c].id && f.conns[d].name == s.conns[c].name
            && f.conns[d].token == s.conns[c].token && f.conns[d].room == Some(ref)
            && f.sessions == s.sessions && f.attempts == s.attempts && f.registry == s.registry
  {
    hide Inv, DoDetach, DoClaim, DoConsume, Detached, Claimed, Consumed, SameButFor, RoomInv, Keyed, Rejoined,
      Disconnected;
    var ref := s.conns[c].room.value;
    var token := s.conns[c].token.value;
    TokenIsUnstored(s, c);
    InvRoomOf(s, c);
    HostPointer(s.rooms[ref], s.conns, c, s.conns[c].id);
    StepsAreTaken(s, c, d, now, later, spare);
    ReclaimedState(s, c, d, token, now);
    ReturnUndoesDisconnect(s.rooms[ref], s.conns, f.conns, c, d, s.conns[c].id, s.conns[c].name, now);
  }

  lemma TokenIsUnstored(s: State, c: ConnId)
    requires Inv(s) && InRoom(s, c)
    ensures Active(s, c) && s.conns[c].token.Some? && s.conns[c].token.value !in s.sessions
  {
    hide Inv, Departing, Roster, Registered;
    ActiveAlways(s, c);
    ActiveFacts(s, c);
  }

  /** None of the three steps is refused. */
  lemma StepsAreTaken(s: State, c: ConnId, d: ConnId, now: Time, later: Time, spare: Token)
    requires InRoom(s, c) && Active(s, c) && s.conns[c].token.Some? && Ready(s, d) && d != c
    requires s.conns[d].room.None? && s.conns[d].pendingRoom.None?
    requires (RoomOf(s, c).host == Some(c) ==> s.conns[d].allow) && later - now <= GRACE
    ensures var ref := s.conns[c].room.value; var token := s.conns[c].token.value;
            && DoDetach(s, c, now, spare) == Detached(s, c, ref, token, now)
            && d in Detached(s, c, ref, token, now).conns && token in Detached(s, c, ref, token, now).sessions
            && var e := DoClaim(Detached(s, c, ref, token, now), d, token, later);
               && e == Claimed(Detached(s, c, ref, token, now), d, token)
               && d in e.attempts && ref in e.rooms && d in e.conns && DoConsume(e, d, ref) == Consumed(e, d, ref)
  {
    hide Detached, Claimed, Consumed, ClaimOk, Succeeds;
    SeatCanBeReclaimed(s, c, d, s.conns[c].token.value, now, later);
    SeatIsListed(s, c, d, s.conns[c].token.value, now);
  }

  lemma SeatIsListed(s: State, c: ConnId, d: ConnId, token: Token, now: Time)
    requires InRoom(s, c) && d in s.conns && d != c
    ensures var t := Detached(s, c, s.conns[c].room.value, token, now);
            d in t.conns && token in t.sessions && d in Claimed(t, d, token).conns
  {
    hide Disconnected;
    DisconnectedFields(s.rooms[s.conns[c].room.value], c, s.conns[c].id, s.conns[c].name, now);
  }

  lemma InvRoomOf(s: State, c: ConnId)
    requires Inv(s) && InRoom(s, c)
    ensures RoomInv(RoomOf(s, c), s.conns) && Keyed(RoomOf(s, c), s.conns)
  {
    hide RegInv, LinkInv, ClosingInv, TokensOk, RoomInv;
    HomeIsLive(s, c);
    ClientsExist(s, s.conns[c].room.value);
  }

  // ---- a visit ----

  lemma {:induction false} UnlistedStays(us: seq<UserInfo>, x: UserInfo)
    requires x.id !in Listed(us)
    ensures WithoutUser(us + [x], x.id) == us
  {
    if us == [] {
      assert us + [x] == [x] && [x][1..] == [];
    } else {
      assert (us + [x])[1..] == us[1..] + [x];
      UnlistedStays(us[1..], x);
    }
  }

  lemma NothingSuggested(r: Room, u: UserId)
    requires MailInv(r) && u !in r.clients && u !in r.away
    ensures Unsuggest(r.suggestions, u) == r.suggestions && u !in r.notices
  {
    hide By;
  }

  /** Nothing in the room is a stranger's. */
  lemma StrangerFacts(r: Room, conns: Conns, u: UserId)
    requires RoomInv(r, conns) && u !in r.clients && u !in r.away
    ensures u !in Listed(r.users) && Unsuggest(r.suggestions, u) == r.suggestions && u !in r.notices
            && r.owner != Some(u)
  {
    hide WellListed, MailInv, Unsuggest, Listed;
    NothingSuggested(r, u);
  }

  /** The room half: admitting a stranger and letting them leave is no change. */
  lemma VisitedRoom(r: Room, conns: Conns, c: ConnId, u: UserId, name: Str, d: Option<ConnId>)
    requires u !in Listed(r.users) && Unsuggest(r.suggestions, u) == r.suggestions && u !in r.notices
             && r.owner != Some(u)
    requires u !in r.clients && u !in r.away && u !in r.pending
    requires r.host != Some(c) && (d.Some? ==> d.value in conns)
    ensures Left(Admitted(r.(pending := r.pending[u := c]), u, c, u, name), conns, c, u, d) == r
  {
    hide WithoutUser, Unsuggest, AssignHost, Listed;
    var x := UserInfo(u, name, false, true);
    UnlistedStays(r.users, x);
    PutBack(r.clients, u, c);
    PutBack(r.pending, u, c);
    NothingToDrop(r.pending, u);
    NothingToDrop(r.away, u);
    NothingToDrop(r.notices, u);
  }

  lemma VisitJoins(s: State, t: State, c: ConnId, raw: Str, code: Code)
    requires c in s.conns && JoinHeard(s, c, raw, code) && JoinOk(s.rooms[s.registry[code]], s.conns[c].id)
    requires t == DoJoin(s, c, raw, code)
    ensures t == Joined(s, c, Sanitize(raw, MAX_USERNAME), s.registry[code])
  {
    hide Sanitize;
  }

  /** The room and the applicant once the host approved. */
  lemma VisitEnters(s: State, t: State, e: State, c: ConnId, name: Str, ref: Ref, h: ConnId, token: Token)
    requires c in s.conns && !s.conns[c].closed && s.conns[c].room.None? && ref in s.rooms
             && JoinOk(s.rooms[ref], s.conns[c].id)
    requires Hosting(s, h) && s.conns[h].room == Some(ref) && h != c
    requires t == Joined(s, c, name, ref) && InRoom(t, h) && e == DoApprove(t, h, s.conns[c].id, token)
    ensures var u := s.conns[c].id; var r := s.rooms[ref];
            && e.conns == s.conns[c := s.conns[c].(name := name, token := Some(token), room := Some(ref), pendingRoom := None)]
            && e.rooms == s.rooms[ref := Admitted(r.(pending := r.pending[u := c]), u, c, u, name)]
            && e.sessions == s.sessions && e.registry == s.registry && e.closing == s.closing
            && e.attempts == s.attempts
            && e.revoked == s.revoked && e.usedTokens == s.usedTokens + {token}
  {
    var u := s.conns[c].id;
    assert Answers(t, h, u) && Admissible(t, h, u);
    assert e == Admit(t, c, ref, u, token);
    assert e.conns == s.conns[c := s.conns[c].(name := name, token := Some(token), room := Some(ref), pendingRoom := None)];
  }

  lemma VisitLeaves(e: State, f: State, c: ConnId, ref: Ref, r: Room, d: Option<ConnId>)
    requires InRoom(e, c) && e.conns[c].room == Some(ref) && Active(e, c) && (d.Some? ==> d.value in e.conns)
    requires e.conns[c].token.Some? && e.conns[c].token.value !in e.sessions && f == DoLeave(e, c, d)
    requires Left(e.rooms[ref], e.conns, c, e.conns[c].id, d) == r && r.hostId.Some?
    ensures f.rooms == e.rooms[ref := r] && f.conns == e.conns[c := e.conns[c].(room := None)]
    ensures f.sessions == e.sessions && f.registry == e.registry && f.closing == e.closing && f.attempts == e.attempts
            && f.revoked == e.revoked
  {
    hide Left;
    NothingToDrop(e.sessions, e.conns[c].token.value);
    assert Refs(e.sessions, {e.conns[c].token.value}) == {};
  }

  /** c may apply to the room under code, and h is there to answer. */
  ghost predicate Welcome(s: State, c: ConnId, raw: Str, code: Code, h: ConnId, token: Token)
  {
    && Ready(s, c) && !s.conns[c].closed && JoinHeard(s, c, raw, code)
    && JoinOk(s.rooms[s.registry[code]], s.conns[c].id)
    && Hosting(s, h) && s.conns[h].room == Some(s.registry[code]) && h != c && Newcomer(s, s.conns[c].id)
    && token !in s.usedTokens
  }

  /** c applies, h approves, c leaves. */
  ghost predicate Visits(s: State, c: ConnId, raw: Str, code: Code, h: ConnId, token: Token, d: Option<ConnId>,
                         t: State, e: State, f: State)
  {
    && c in s.conns && t == DoJoin(s, c, raw, code) && InRoom(t, h) && e == DoApprove(t, h, s.conns[c].id, token)
    && InRoom(e, c) && (d.Some? ==> d.value in e.conns) && f == DoLeave(e, c, d)
  }

  /** Round trip: a stranger who applies, is approved and leaves again leaves no
      trace. Every room, the registry and the token table are as before; only the
      visitor's connection remembers the name and a token that leads nowhere. */
  lemma VisitLeavesNoTrace(s: State, c: ConnId, raw: Str, code: Code, h: ConnId, token: Token, d: Option<ConnId>,
                           t: State, e: State, f: State)
    requires Inv(s) && Welcome(s, c, raw, code, h, token) && Visits(s, c, raw, code, h, token, d, t, e, f)
    ensures e.conns[c].room == Some(s.registry[code])
    ensures f.rooms == s.rooms && f.registry == s.registry && f.sessions == s.sessions && f.attempts == s.attempts
    ensures f.closing == s.closing && f.revoked == s.revoked
    ensures f.conns == s.conns[c := s.conns[c].(name := Sanitize(raw, MAX_USERNAME), token := Some(token))]
  {
    hide Inv, Sanitize, DoJoin, DoApprove, DoLeave, Joined, RoomInv, Left, Newcomer, Admitted, Listed, Unsuggest;
    var ref, u, name := s.registry[code], s.conns[c].id, Sanitize(raw, MAX_USERNAME);
    var r := s.rooms[ref];
    VisitJoins(s, t, c, raw, code);
    VisitEnters(s, t, e, c, name, ref, h, token);
    Stranger(s, ref, u);
    VisitedHost(s, h, u);
    VisitedRoom(r, e.conns, c, u, name, d);
    InvUnstored(s, token);
    AdmittedFields(r.(pending := r.pending[u := c]), u, c, u, name);
    VisitLeaves(e, f, c, ref, r, d);
    Reput(s.rooms, ref, r);
  }

  lemma Reput<K, V>(m: map<K, V>, k: K, v: V)
    requires k in m && m[k] == v
    ensures m[k := v] == m
  {
  }

  lemma VisitedHost(s: State, h: ConnId, u: UserId)
    requires Inv(s) && Hosting(s, h) && u !in RoomOf(s, h).clients && u !in RoomOf(s, h).away
    ensures var r := RoomOf(s, h);
            && u !in Listed(r.users) && Unsuggest(r.suggestions, u) == r.suggestions && u !in r.notices
            && r.owner != Some(u)
            && r.hostId.Some?
  {
    hide Inv, RoomInv, Unsuggest, Listed;
    InvRoomOf(s, h);
    StrangerFacts(RoomOf(s, h), s.conns, u);
    ActiveAlways(s, h);
    HostPointer(RoomOf(s, h), s.conns, h, s.conns[h].id);
  }

  lemma Stranger(s: State, ref: Ref, u: UserId)
    requires Newcomer(s, u) && ref in s.rooms
    ensures u !in s.rooms[ref].clients && u !in s.rooms[ref].away
  {
    assert !MemberIn(s.rooms, ref, u);
  }

  lemma InvUnstored(s: State, token: Token)
    requires Inv(s) && token !in s.usedTokens
    ensures token !in s.sessions
  {
    hide RoomsOk, ClosingInv, Backed, Separate, Covered, Carried, AttemptInv, HistoryInv;
  }

  // ---- suggesting ----

  /** The track of c's suggestion as it would be queued. */
  function Proposed(s: State, c: ConnId, raw: Track): Track
    requires c in s.conns && CleanTrack(raw).Some?
  {
    CleanTrack(raw).value.(suggestedBy := s.conns[c].name)
  }

  /** A suggestion that is approved is next in the queue under the author's name. */
  lemma SuggestionIsPlayedNext(s: State, c: ConnId, id: SuggestionId, raw: Track, h: ConnId, now: int, e: State)
    requires c in s.conns && s.conns[c].room.Some? && s.conns[c].room.value in s.rooms && CleanTrack(raw).Some?
    requires SuggestOk(s, c, CleanTrack(raw).value) && Hosting(s, h) && s.conns[h].room == s.conns[c].room
    requires id !in s.rooms[s.conns[c].room.value].suggestions && InRoom(DoSuggest(s, c, id, raw), h)
    requires e == DoApproveSuggestion(DoSuggest(s, c, id, raw), h, id, now)
    requires Suggested(s.rooms[s.conns[c].room.value].play, Proposed(s, c, raw), now).1.Applied?
    ensures var ref := s.conns[c].room.value; var r := s.rooms[ref];
            var queue, revision := [Proposed(s, c, raw)] + r.play.queue, Next64(r.play.revision);
            e == s.(rooms := s.rooms[ref := r.(play := r.play.(queue := queue, revision := revision))], clock := now)
  {
    hide CleanTrack, SuggestOk, Suggested;
    var ref := s.conns[c].room.value;
    var k := s.conns[c];
    var r := s.rooms[ref];
    var x := Suggestion(id, k.id, k.name, CleanTrack(raw).value);
    assert k.id in r.clients by { SuggestsInside(s, c, CleanTrack(raw).value); }
    PutBack(r.suggestions, id, x);
    var t := DoSuggest(s, c, id, raw);
    assert t.rooms[ref] == Submitted(r, x);
    var p := Suggested(r.play, Proposed(s, c, raw), now).0;
    assert Resolved(Submitted(r, x), id, Approved(id, Proposed(s, c, raw))).(play := p) == r.(play := p);
    assert e.rooms == s.rooms[ref := r.(play := p)];
    NextInQueue(r.play, Proposed(s, c, raw), now);
  }

  lemma NextInQueue(p: Play, t: Track, now: int)
    requires Suggested(p, t, now).1.Applied?
    ensures Suggested(p, t, now).0 == p.(queue := [t] + p.queue, revision := Next64(p.revision))
  {
    hide WireSize, Queued;
  }

  lemma SuggestsInside(s: State, c: ConnId, track: Track)
    requires c in s.conns && s.conns[c].room.Some? && s.conns[c].room.value in s.rooms && SuggestOk(s, c, track)
    ensures s.conns[c].id in s.rooms[s.conns[c].room.value].clients
  {
    hide By;
  }

  /** Round trip: what a suggestion put into the queue the host can take out again.
      After suggesting, approving and removing, members, suggestions and queue are
      what they were, two revisions on. */
  lemma SuggestionUndone(s: State, c: ConnId, id: SuggestionId, raw: Track, h: ConnId, now: int, m: Request, e: State,
                         f: State)
    requires Inv(s) && c in s.conns && s.conns[c].room.Some? && s.conns[c].room.value in s.rooms
             && CleanTrack(raw).Some?
    requires SuggestOk(s, c, CleanTrack(raw).value) && Hosting(s, h) && s.conns[h].room == s.conns[c].room
    requires id !in s.rooms[s.conns[c].room.value].suggestions && InRoom(DoSuggest(s, c, id, raw), h)
    requires e == DoApproveSuggestion(DoSuggest(s, c, id, raw), h, id, now)
    requires Suggested(s.rooms[s.conns[c].room.value].play, Proposed(s, c, raw), now).1.Applied?
    requires m.action.QueueRemove? && m.trackId == raw.id && m.hostSeq == 0 && InRoom(e, h)
             && f == DoControl(e, h, m, now)
    ensures var ref := s.conns[c].room.value; var r := s.rooms[ref];
            && f.rooms == s.rooms[ref := r.(play := r.play.(revision := Next64(Next64(r.play.revision))))]
            && f.conns == s.conns && f.sessions == s.sessions && f.registry == s.registry
  {
    hide Inv, CleanTrack, SuggestOk, Suggested, DoSuggest, DoApproveSuggestion, HasTrack, Without, WireSize;
    var ref := s.conns[c].room.value;
    var r := s.rooms[ref];
    SuggestionIsPlayedNext(s, c, id, raw, h, now, e);
    ActiveAlways(s, h);
    CleanTrackStores(raw);
    NextInQueue(r.play, Proposed(s, c, raw), now);
    RemoveSuggested(r.play, Proposed(s, c, raw), m, now, s.conns[h].rtt);
    hide Handle, Stored;
    assert f.rooms == s.rooms[ref := r.(play := r.play.(revision := Next64(Next64(r.play.revision))))];
  }

  lemma RemoveSuggested(p: Play, t: Track, m: Request, now: int, rtt: int)
    requires Suggested(p, t, now).1.Applied? && m.action.QueueRemove? && m.trackId == t.id && t.id != []
             && m.hostSeq == 0
    ensures Handle(Suggested(p, t, now).0, m, now, rtt).0 == p.(revision := Next64(Next64(p.revision)))
  {
    hide HasTrack, Without, WireSize;
    AddedOnce(p.queue, t);
  }

  // ---- leaving nothing behind ----

  lemma {:induction false} WithoutUserGone(us: seq<UserInfo>, u: UserId)
    ensures forall x :: x in WithoutUser(us, u) ==> x.id != u
  {
    if us != [] { WithoutUserGone(us[1..], u); }
  }

  lemma {:induction false} FlagNames(us: seq<UserInfo>, host: Option<UserId>, u: UserId)
    requires forall x :: x in us ==> x.id != u
    ensures forall x :: x in FlagHost(us, host) ==> x.id != u
  {
    if us != [] { FlagNames(us[1..], host, u); }
  }

  /** No list and no map of the room names u, nor does it wait as the owner. */
  ghost predicate Absent(q: Room, u: UserId)
  {
    && u !in q.clients && u !in q.away && u !in q.notices && q.owner != Some(u) && By(q.suggestions, u) == {}
    && forall x :: x in q.users ==> x.id != u
  }

  lemma DroppedIsAbsent(r: Room, u: UserId)
    ensures Absent(Dropped(r, u), u)
  {
    hide WithoutUser, By, Unsuggest, Dropped;
    DroppedFields(r, u);
    WithoutUserGone(r.users, u);
    SuggestionsShrink(r.suggestions, u);
  }

  lemma AssignedIsAbsent(q: Room, conns: Conns, d: Option<ConnId>, u: UserId)
    requires Absent(q, u) && (d.Some? ==> d.value in conns)
    ensures Absent(AssignHost(q, conns, d), u)
  {
    hide FlagHost, By;
    FlagNames(q.users, if d.Some? then Some(conns[d.value].id) else None, u);
  }

  /** The deputy among clients filed under their own IDs is one of them. */
  lemma DeputyIsOther(clients: map<UserId, ConnId>, conns: Conns, d: Option<ConnId>, u: UserId)
    requires Deputy(clients, conns, d) && u !in clients
             && forall v :: v in clients ==> clients[v] in conns && conns[clients[v]].id == v
    ensures d.Some? ==> d.value in conns && conns[d.value].id != u
  {
    if d.Some? { var v :| Best(clients, conns, v) && clients[v] == d.value; }
  }

  /** Whoever leaves is in no list, map or role of the room any more; only a room
      that this leaves deserted, and which is deleted next, keeps its last host. */
  lemma DepartureIsComplete(r: Room, conns: Conns, c: ConnId, u: UserId, d: Option<ConnId>)
    requires RoomInv(r, conns) && Keyed(r, conns) && u in r.clients && r.clients[u] == c
             && Deputy(r.clients - {u}, conns, d)
    ensures d.Some? ==> d.value in conns
    ensures var q := Left(r, conns, c, u, d);
            && Absent(q, u) && u !in q.pending
            && (q.hostId == Some(u) <==> Deserted(q) && r.hostId == Some(u))
            && (q.host == Some(c) <==> Deserted(q) && r.hostId == Some(u))
  {
    hide RoomInv, Deputy, Dropped, AssignHost, Absent;
    DeputyIsOther(r.clients - {u}, conns, d, u);
    HostPointer(r, conns, c, u);
    DroppedIsAbsent(r, u);
    LeftIsDropped(r, conns, c, u, d);
    AssignedIsAbsent(Dropped(r, u), conns, d, u);
    AssignedSeat(Dropped(r, u), conns, d);
    DroppedFields(r, u);
  }

  lemma AssignedSeat(r: Room, conns: Conns, d: Option<ConnId>)
    requires d.Some? ==> d.value in conns
    ensures var q := AssignHost(r, conns, d);
            q.host == d && q.hostId == (if d.Some? then Some(conns[d.value].id) else None) && q.clients == r.clients && q.away == r.away
  {
    hide FlagHost;
  }

  /** Leaving is the common removal, without the application, and the succession. */
  lemma LeftIsDropped(r: Room, conns: Conns, c: ConnId, u: UserId, d: Option<ConnId>)
    requires d.Some? ==> d.value in conns
    ensures var q := Dropped(r, u);
            Left(r, conns, c, u, d) == (if Deserted(q) || r.host != Some(c) then q else AssignHost(q, conns, d)).(pending := r.pending - {u})
    ensures forall p :: Absent(p, u) ==> Absent(p.(pending := r.pending - {u}), u)
  {
    hide WithoutUser, Unsuggest, FlagHost, By;
  }

  /** Whoever expires is in no list, map or role any more. */
  lemma ExpiryIsComplete(r: Room, conns: Conns, u: UserId, d: Option<ConnId>)
    requires RoomInv(r, conns) && Keyed(r, conns) && u in r.away && Deputy(r.clients, conns, d)
    ensures d.Some? ==> d.value in conns
    ensures var q := Expired(r, conns, u, d);
            && Absent(q, u) && q.hostId != Some(u)
            && (q.host.Some? ==> q.host.value in conns && conns[q.host.value].id != u)
  {
    hide Deputy, Dropped, AssignHost, Absent, Roster, MailInv;
    Apart(r, u);
    DeputyIsOther(r.clients, conns, d, u);
    DroppedIsAbsent(r, u);
    NothingToDrop(r.clients, u);
    ExpiredIsDropped(r, conns, u, d);
    AssignedIsAbsent(Dropped(r, u), conns, d, u);
    AssignedSeat(Dropped(r, u), conns, d);
    DroppedFields(r, u);
  }

  lemma ExpiredIsDropped(r: Room, conns: Conns, u: UserId, d: Option<ConnId>)
    requires u !in r.clients && (d.Some? ==> d.value in conns)
    ensures var q := Dropped(r, u);
            Expired(r, conns, u, d) == if r.hostId != Some(u) then q else AssignHost(q, conns, d)
  {
    hide WithoutUser, Unsuggest, FlagHost;
    NothingToDrop(r.clients, u);
  }

  /** Whoever is kicked is in no list, map or role any more. */
  lemma KickIsComplete(s: State, c: ConnId, u: UserId)
    requires Inv(s) && InRoom(s, c) && KickOk(s, c, u)
    ensures var ref := s.conns[c].room.value; var q := Kicked(s.rooms[ref], u);
            Absent(q, u) && q.hostId != Some(u) && q.host == Some(c) && s.conns[c].id != u
            && q.hostId == Some(s.conns[c].id)
  {
    hide Inv, RoomInv, Dropped, Kicked, Absent, Roster;
    var r := RoomOf(s, c);
    InvRoomOf(s, c);
    ActiveAlways(s, c);
    HostPointer(r, s.conns, c, s.conns[c].id);
    RolesOf(r, s.conns, s.conns[c].id);
    KickedIsDropped(r, u);
    DroppedIsAbsent(r, u);
    DroppedFields(r, u);
  }

  /** Another member's place, notices and suggestions. */
  ghost predicate Untouched(r: Room, q: Room, v: UserId)
  {
    && (v in q.clients <==> v in r.clients) && (v in q.clients ==> q.clients[v] == r.clients[v])
    && (v in q.away <==> v in r.away) && (v in q.away ==> q.away[v] == r.away[v])
    && NoticesIn(q.notices, v) == NoticesIn(r.notices, v) && By(q.suggestions, v) == By(r.suggestions, v)
  }

  lemma DroppedIsPrivate(r: Room, u: UserId, v: UserId)
    requires v != u
    ensures Untouched(r, Dropped(r, u), v)
  {
    hide WithoutUser, By, Unsuggest, Dropped;
    DroppedFields(r, u);
    SuggestionsShrink(r.suggestions, u);
    DropElsewhere(r.clients, u, v);
    DropElsewhere(r.away, u, v);
    DropElsewhere(r.notices, u, v);
  }

  /** Nobody else's place, notices or suggestions are touched, whether somebody
      leaves, expires or is kicked, and whoever succeeds them. */
  lemma DepartureIsPrivate(r: Room, conns: Conns, c: ConnId, u: UserId, v: UserId, d: Option<ConnId>)
    requires Roster(r) && v != u && (d.Some? ==> d.value in conns)
    ensures Untouched(r, Left(r, conns, c, u, d), v)
    ensures u in r.away ==> Untouched(r, Expired(r, conns, u, d), v)
    ensures Untouched(r, Kicked(r, u), v)
  {
    hide Roster, Dropped, AssignHost, Left, Expired, Kicked, By, Deserted;
    DroppedIsPrivate(r, u, v);
    SameForOthers(r, Dropped(r, u), conns, d, v, r.pending - {u});
    LeftIsDropped(r, conns, c, u, d);
    KickedIsDropped(r, u);
    if u in r.away {
      Apart(r, u);
      ExpiredIsDropped(r, conns, u, d);
    }
    hide Untouched;
  }

  lemma SameForOthers(r: Room, q: Room, conns: Conns, d: Option<ConnId>, v: UserId, p: map<UserId, ConnId>)
    requires Untouched(r, q, v) && (d.Some? ==> d.value in conns)
    ensures Untouched(r, q.(pending := p), v)
    ensures Untouched(r, AssignHost(q, conns, d), v) && Untouched(r, AssignHost(q, conns, d).(pending := p), v)
  {
    hide FlagHost, By;
  }

  lemma DropElsewhere<K, V>(m: map<K, V>, k: K, other: K)
    requires other != k
    ensures other in m - {k} <==> other in m
    ensures other in m ==> (m - {k})[other] == m[other]
  {
  }
}
