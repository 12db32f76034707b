/**
 Why runs are proper: a connection whose member was turned into a reserved seat
 starts nothing new. After an ordinary disconnect its read pump has ended; only
 `replaceLiveSession` leaves it open for a moment. In every run that respects
 this, each step is proper.
 */
module Discipline {
  import opened Base
  import opened Text
  import opened Tracks
  import opened Playback
  import opened Rooms
  import opened Links
  import opened Lobby
  import opened LobbyRooms
  import opened LobbyLinks
  import opened Tokens
  import opened LobbyRuns
  import opened LobbyTimers
  import opened Runs
  import opened Restart
  import opened Reboot

  /** Connections that were detached create and join no more. */
  predicate Disciplined(s: State, a: Step)
  {
    match a
    case Create(c, _, _, _, _, _) => c in s.conns && !s.conns[c].detached
    case Join(c, _, _) => c in s.conns && !s.conns[c].detached
    case _ => true
  }

  // ---- who may speak for an ID ----

  /** At most one connection that is not detached bears an ID. */
  ghost predicate OneVoice(conns: Conns)
  {
    forall c, d :: c in conns && d in conns && c != d && conns[c].id == conns[d].id ==>
      conns[c].detached || conns[d].detached
  }

  /** If a user is a member somewhere, the connection that bears the ID is the
      active one; a reserved seat has none. */
  ghost predicate Spoken(conns: Conns, rooms: Seating)
  {
    forall ref, u, c :: MemberIn(rooms, ref, u) && c in conns && conns[c].id == u && !conns[c].detached ==>
      ActiveIn(rooms, ref, u, c)
  }

  /** Applicants are in no room and not detached. */
  ghost predicate Waiting(conns: Conns)
  {
    forall c :: c in conns && conns[c].pendingRoom.Some? ==> conns[c].room.None? && !conns[c].detached
  }

  /** A session taken by cleanup: nobody can come back under its ID. */
  ghost predicate Silent(s: State, x: Session)
  {
    && x.user in s.usedIds && Untokened(s, x.user)
    && (forall c :: c in s.conns && s.conns[c].id == x.user ==> s.conns[c].detached && s.conns[c].room.None?)
    && (forall ref :: MemberIn(s.rooms, ref, x.user) ==>
         x.user !in s.rooms[ref].clients && s.rooms[ref].away[x.user] == x)
  }

  ghost predicate Doomed(s: State) { forall x :: x in s.expiring ==> Silent(s, x) }

  ghost predicate Quiet(s: State) { OneVoice(s.conns) && Spoken(s.conns, s.rooms) && Waiting(s.conns) && Doomed(s) }

  // ---- quiet states take only proper steps ----

  lemma SpeakerIsNew(s: State, c: ConnId)
    requires Linking(s) && Spoken(s.conns, s.rooms) && c in s.conns && !s.conns[c].detached && s.conns[c].room.None?
    ensures Newcomer(s, s.conns[c].id)
  {
    hide BackLinked, Applicants, OneHome, Known;
    forall x ensures !MemberIn(s.rooms, x, s.conns[c].id) {
      assert MemberIn(s.rooms, x, s.conns[c].id) ==> ActiveIn(s.rooms, x, s.conns[c].id, c);
    }
  }

  lemma ApplicantIsNew(s: State, ref: Ref, key: UserId)
    requires Linking(s) && Spoken(s.conns, s.rooms) && Waiting(s.conns) && ref in s.rooms && key in s.rooms[ref].pending
    ensures Newcomer(s, key)
  {
    hide LinkInv, Newcomer;
    ApplicantKnown(s, ref, key);
    SpeakerIsNew(s, s.rooms[ref].pending[key]);
  }

  lemma QuietIsProper(s: State, a: Step)
    requires Inv(s) && Quiet(s) && Enabled(s, a) && Disciplined(s, a)
    ensures Proper(s, a)
  {
    hide Inv, LinkInv, OneVoice, Spoken, Waiting, Newcomer, Untokened, Picked, Sanitize;
    InvLinking(s);
    match a
    case Create(c, raw, code, _, _, _) =>
      if CreateOk(s, c, raw, code) { SpeakerIsNew(s, c); }
    case Approve(c, key, _) =>
      if Answers(s, c, key) {
        ApplicantKnown(s, s.conns[c].room.value, key);
        ApplicantIsNew(s, s.conns[c].room.value, key);
      }
    case Expire(x, _) => assert Silent(s, x);
    case _ =>
  }

  // ---- ebbing: nobody enters ----

  /** Members and seats only go, and no active member becomes a reserved one. */
  ghost predicate RoomEbb(r: Room, q: Room)
  {
    && (forall u :: u in q.clients ==> u in r.clients && q.clients[u] == r.clients[u])
    && (forall u :: u in q.away ==> u in r.away && q.away[u] == r.away[u])
    && (forall u :: u in r.clients && u !in q.clients ==> u !in q.away)
  }

  predicate ConnEbb(k: Conn, k': Conn)
  {
    && k'.id == k.id && k'.detached == k.detached && (k'.room == k.room || k'.room.None?)
    && (k'.pendingRoom == k.pendingRoom || k'.pendingRoom.None? || (!k.detached && k'.room.None?))
  }

  ghost predicate Ebb(s: State, t: State)
  {
    && t.conns.Keys == s.conns.Keys && (forall c :: c in s.conns ==> ConnEbb(s.conns[c], t.conns[c]))
    && t.rooms.Keys == s.rooms.Keys && (forall x :: x in s.rooms ==> RoomEbb(s.rooms[x], t.rooms[x]))
    && t.expiring <= s.expiring && s.usedIds <= t.usedIds
    && (forall v :: v in t.sessions ==> v in s.sessions && t.sessions[v].session == s.sessions[v].session)
  }

  lemma EbbVoices(s: State, t: State)
    requires OneVoice(s.conns) && Spoken(s.conns, s.rooms) && Waiting(s.conns) && Ebb(s, t)
    ensures OneVoice(t.conns) && Spoken(t.conns, t.rooms) && Waiting(t.conns)
  {
    forall ref, u, c | MemberIn(t.rooms, ref, u) && c in t.conns && t.conns[c].id == u && !t.conns[c].detached
      ensures ActiveIn(t.rooms, ref, u, c)
    {
      assert RoomEbb(s.rooms[ref], t.rooms[ref]) && ConnEbb(s.conns[c], t.conns[c]);
      assert MemberIn(s.rooms, ref, u);
      assert ActiveIn(s.rooms, ref, u, c);
    }
  }

  lemma EbbDoomed(s: State, t: State)
    requires Doomed(s) && Ebb(s, t)
    ensures Doomed(t)
  {
    forall x | x in t.expiring ensures Silent(t, x) {
      assert Silent(s, x);
      forall c | c in t.conns && t.conns[c].id == x.user ensures t.conns[c].detached && t.conns[c].room.None? {
        assert ConnEbb(s.conns[c], t.conns[c]);
      }
      forall ref | MemberIn(t.rooms, ref, x.user)
        ensures x.user !in t.rooms[ref].clients && t.rooms[ref].away[x.user] == x
      {
        assert RoomEbb(s.rooms[ref], t.rooms[ref]);
        assert MemberIn(s.rooms, ref, x.user);
      }
    }
  }

  lemma EbbKeeps(s: State, t: State)
    requires Quiet(s) && Ebb(s, t)
    ensures Quiet(t)
  {
    hide OneVoice, Spoken, Waiting, Doomed, Ebb;
    EbbVoices(s, t);
    EbbDoomed(s, t);
  }

  /** One room changes, connections lose pointers, tokens go. */
  lemma EbbPut(s: State, t: State, ref: Ref, q: Room)
    requires Quiet(s) && ref in s.rooms && t.rooms == s.rooms[ref := q] && RoomEbb(s.rooms[ref], q)
    requires t.conns.Keys == s.conns.Keys && (forall c :: c in s.conns ==> ConnEbb(s.conns[c], t.conns[c]))
    requires t.expiring <= s.expiring && s.usedIds <= t.usedIds
    requires forall v :: v in t.sessions ==> v in s.sessions && t.sessions[v].session == s.sessions[v].session
    ensures Quiet(t)
  {
    hide Quiet;
    assert Ebb(s, t) by { assert forall x :: x in s.rooms ==> RoomEbb(s.rooms[x], s.rooms[x]); }
    EbbKeeps(s, t);
  }

  lemma EbbSame(s: State, t: State)
    requires Quiet(s) && t.rooms == s.rooms
    requires t.conns.Keys == s.conns.Keys && (forall c :: c in s.conns ==> ConnEbb(s.conns[c], t.conns[c]))
    requires t.expiring <= s.expiring && s.usedIds <= t.usedIds
    requires forall v :: v in t.sessions ==> v in s.sessions && t.sessions[v].session == s.sessions[v].session
    ensures Quiet(t)
  {
    hide Quiet;
    assert Ebb(s, t) by { assert forall x :: x in s.rooms ==> RoomEbb(s.rooms[x], s.rooms[x]); }
    EbbKeeps(s, t);
  }

  // ---- somebody enters ----

  /** c becomes the member u of ref; nobody else who could speak as u is left. */
  ghost predicate Entering(s: State, t: State, ref: Ref, c: ConnId, u: UserId)
  {
    && c in s.conns && t.conns.Keys == s.conns.Keys && (forall d :: d in s.conns && d != c ==> t.conns[d] == s.conns[d])
    && t.conns[c].id == u && t.conns[c].pendingRoom.None?
    && (forall d :: d in s.conns && d != c && s.conns[d].id == u ==> s.conns[d].detached)
    && ref in t.rooms && t.rooms.Keys == s.rooms.Keys + {ref}
    && (forall x :: x in s.rooms && x != ref ==> t.rooms[x] == s.rooms[x])
    && ActiveIn(t.rooms, ref, u, c)
    && (forall v :: v != u ==> MemberIn(t.rooms, ref, v) ==> MemberIn(s.rooms, ref, v))
    && (forall v, d :: v != u && ActiveIn(s.rooms, ref, v, d) ==> ActiveIn(t.rooms, ref, v, d))
    && (forall v :: v != u && v in t.rooms[ref].clients ==> ref in s.rooms && v in s.rooms[ref].clients)
    && (forall v :: v in t.rooms[ref].away ==> ref in s.rooms && v in s.rooms[ref].away && t.rooms[ref].away[v] == s.rooms[ref].away[v])
    && (forall x :: MemberIn(s.rooms, x, u) ==> x == ref)
    && t.expiring == s.expiring && (forall x :: x in s.expiring ==> x.user != u) && s.usedIds <= t.usedIds
    && (forall v :: v in t.sessions ==> v in s.sessions && t.sessions[v].session == s.sessions[v].session)
  }

  lemma EntryVoices(s: State, t: State, ref: Ref, c: ConnId, u: UserId)
    requires OneVoice(s.conns) && Spoken(s.conns, s.rooms) && Waiting(s.conns) && Entering(s, t, ref, c, u)
    ensures OneVoice(t.conns) && Spoken(t.conns, t.rooms) && Waiting(t.conns)
  {
    forall x, v, d | MemberIn(t.rooms, x, v) && d in t.conns && t.conns[d].id == v && !t.conns[d].detached
      ensures ActiveIn(t.rooms, x, v, d)
    {
      if v != u {
        assert MemberIn(s.rooms, x, v);
        assert ActiveIn(s.rooms, x, v, d);
      } else if x != ref {
        assert MemberIn(s.rooms, x, u);
      }
    }
  }

  lemma EntryDoomed(s: State, t: State, ref: Ref, c: ConnId, u: UserId)
    requires Doomed(s) && Entering(s, t, ref, c, u)
    ensures Doomed(t)
  {
    forall x | x in t.expiring ensures Silent(t, x) {
      assert Silent(s, x);
      forall y | MemberIn(t.rooms, y, x.user) ensures x.user !in t.rooms[y].clients && t.rooms[y].away[x.user] == x {
        assert MemberIn(s.rooms, y, x.user);
      }
    }
  }

  lemma EntryKeeps(s: State, t: State, ref: Ref, c: ConnId, u: UserId)
    requires Quiet(s) && Entering(s, t, ref, c, u)
    ensures Quiet(t)
  {
    hide OneVoice, Spoken, Waiting, Doomed, Entering;
    EntryVoices(s, t, ref, c, u);
    EntryDoomed(s, t, ref, c, u);
  }

  lemma SpeakerAlone(s: State, c: ConnId)
    requires Quiet(s) && c in s.conns && !s.conns[c].detached
    ensures forall d :: d in s.conns && d != c && s.conns[d].id == s.conns[c].id ==> s.conns[d].detached
    ensures forall x :: x in s.expiring ==> x.user != s.conns[c].id
  {
    hide Spoken, Waiting;
    forall x | x in s.expiring ensures x.user != s.conns[c].id { assert Silent(s, x); }
  }

  lemma CreateQuiet(s: State, t: State, c: ConnId, name: Str, code: Code, ref: Ref, token: Token, now: int)
    requires Quiet(s) && c in s.conns && !s.conns[c].detached && ref !in s.rooms && s.conns[c].pendingRoom.None?
    requires Newcomer(s, s.conns[c].id) && t == Created(s, c, name, code, ref, token, now)
    ensures Quiet(t)
  {
    hide Quiet;
    SpeakerAlone(s, c);
    assert Entering(s, t, ref, c, s.conns[c].id);
    EntryKeeps(s, t, ref, c, s.conns[c].id);
  }

  lemma AdmitEnters(s: State, t: State, j: ConnId, ref: Ref, key: UserId, token: Token)
    requires j in s.conns && ref in s.rooms && s.conns[j].pendingRoom == Some(ref) && Newcomer(s, s.conns[j].id)
    requires forall d :: d in s.conns && d != j && s.conns[d].id == s.conns[j].id ==> s.conns[d].detached
    requires forall x :: x in s.expiring ==> x.user != s.conns[j].id
    requires t == Admit(s, j, ref, key, token)
    ensures Entering(s, t, ref, j, s.conns[j].id)
  {
    hide Admitted;
    AdmittedFields(s.rooms[ref], key, j, s.conns[j].id, s.conns[j].name);
  }

  lemma AdmitQuiet(s: State, t: State, j: ConnId, ref: Ref, key: UserId, token: Token)
    requires Quiet(s) && j in s.conns && !s.conns[j].detached && ref in s.rooms && s.conns[j].pendingRoom == Some(ref)
    requires Newcomer(s, s.conns[j].id) && t == Admit(s, j, ref, key, token)
    ensures Quiet(t)
  {
    hide Quiet, Entering;
    SpeakerAlone(s, j);
    AdmitEnters(s, t, j, ref, key, token);
    EntryKeeps(s, t, ref, j, s.conns[j].id);
  }

  /** Nobody speaks for a reserved seat. */
  lemma SeatUnspoken(s: State, ref: Ref, u: UserId)
    requires RoomsOk(s) && Spoken(s.conns, s.rooms) && ref in s.rooms && u in s.rooms[ref].away
    ensures forall d :: d in s.conns && s.conns[d].id == u ==> s.conns[d].detached
  {
    hide RoomsOk;
    SeatFiled(s, ref, u);
    forall d | d in s.conns && s.conns[d].id == u ensures s.conns[d].detached {
      assert MemberIn(s.rooms, ref, u);
      assert s.conns[d].detached || ActiveIn(s.rooms, ref, u, d);
    }
  }

  lemma TokenedLives(s: State, v: Token)
    requires Doomed(s) && v in s.sessions
    ensures forall x :: x in s.expiring ==> x.user != s.sessions[v].session.user
  {
    forall x | x in s.expiring ensures x.user != s.sessions[v].session.user { assert Silent(s, x); }
  }

  lemma HeldSession(s: State, c: ConnId)
    requires TokensOk(s) && c in s.attempts && s.attempts[c].token in s.sessions
    ensures s.sessions[s.attempts[c].token].session == s.attempts[c].session && c in s.conns
            && s.conns[c].pendingRoom.None?
  {
    hide TokenInv, HistoryInv, OneHolder, ClaimsHeld;
    assert Attempting(s, c);
  }

  lemma ConsumeEnters(s: State, t: State, c: ConnId, ref: Ref)
    requires c in s.attempts && ref in s.rooms && c in s.conns && s.conns[c].pendingRoom.None?
             && t == Consumed(s, c, ref)
    requires var u := s.attempts[c].session.user;
             && (forall d :: d in s.conns && s.conns[d].id == u ==> s.conns[d].detached)
             && (forall x :: x in s.expiring ==> x.user != u)
             && (forall x :: MemberIn(s.rooms, x, u) ==> x == ref)
    ensures Entering(s, t, ref, c, s.attempts[c].session.user)
  {
    hide Rejoined;
    RejoinedFields(s.rooms[ref], t.conns, c, s.attempts[c].session.user);
  }

  lemma ConsumeQuiet(s: State, t: State, c: ConnId, ref: Ref)
    requires Inv(s) && Quiet(s) && c in s.attempts && ref in s.rooms && Succeeds(s, c, ref) && t == Consumed(s, c, ref)
    ensures Quiet(t)
  {
    hide Inv, RoomsOk, ClosingInv, TokensOk, OneVoice, Spoken, Waiting, Doomed, Consumed, Entering;
    InvParts(s);
    var a := s.attempts[c];
    HeldSession(s, c);
    SeatFiled(s, ref, a.session.user);
    SeatUnspoken(s, ref, a.session.user);
    TokenedLives(s, a.token);
    ConsumeEnters(s, t, c, ref);
    EntryKeeps(s, t, ref, c, a.session.user);
  }

  // ---- a connection comes, or takes a new ID ----

  lemma RenewQuiet(s: State, t: State, c: ConnId, k: Conn)
    requires Linking(s) && Quiet(s) && k.id !in s.usedIds && k.room.None? && (k.pendingRoom.Some? ==> !k.detached)
    requires t.conns == s.conns[c := k] && t.rooms == s.rooms && t.sessions == s.sessions && t.expiring == s.expiring
    requires t.usedIds == s.usedIds + {k.id}
    ensures Quiet(t)
  {
    hide Linked, BackLinked, Applicants, OneHome;
    assert OneVoice(t.conns) && Spoken(t.conns, t.rooms) && Waiting(t.conns);
    forall x | x in t.expiring ensures Silent(t, x) { assert Silent(s, x); }
  }

  lemma RemovePendingQuiet(s: State, c: ConnId)
    requires Quiet(s) && c in s.conns
    ensures Quiet(DoRemovePending(s, c))
  {
    hide Quiet;
    var t := DoRemovePending(s, c);
    var k := s.conns[c];
    if k.pendingRoom.Some? {
      var ref := k.pendingRoom.value;
      if ref in s.rooms && k.id in s.rooms[ref].pending && s.rooms[ref].pending[k.id] == c {
        EbbPut(s, t, ref, t.rooms[ref]);
      } else {
        EbbSame(s, t);
      }
    }
  }

  lemma CancelQuiet(s: State, c: ConnId, id: UserId)
    requires Inv(s) && Quiet(s) && c in s.conns && c !in s.attempts && id !in s.usedIds
    ensures Quiet(DoCancel(s, c, id))
  {
    hide Inv, LinkInv, OneVoice, Spoken, Doomed, DoRemovePending;
    if s.conns[c].room.None? {
      var u := DoRemovePending(s, c);
      RemovePendingQuiet(s, c);
      RemovePendingKeeps(s, c);
      InvLinking(u);
      RemovePendingFacts(s, c);
      RenewQuiet(u, DoCancel(s, c, id), c, u.conns[c].(id := id));
    }
  }

  // ---- a member becomes a seat, a seat becomes doomed ----

  /** c, active as u in ref, leaves a reserved seat x behind under its token. */
  ghost predicate SeatLeft(s: State, t: State, ref: Ref, c: ConnId, u: UserId, token: Token, x: Session)
  {
    && ActiveIn(s.rooms, ref, u, c) && c in s.conns && s.conns[c].id == u && s.conns[c].room.Some?
    && t.conns.Keys == s.conns.Keys && (forall d :: d in s.conns && d != c ==> t.conns[d] == s.conns[d])
    && t.conns[c].id == u && t.conns[c].room.None? && t.conns[c].detached
    && t.conns[c].pendingRoom == s.conns[c].pendingRoom
    && ref in t.rooms && t.rooms == s.rooms[ref := t.rooms[ref]]
    && t.rooms[ref].clients == s.rooms[ref].clients - {u} && t.rooms[ref].away == s.rooms[ref].away[u := x]
    && x.user == u
    && t.expiring == s.expiring && t.usedIds == s.usedIds
    && t.sessions.Keys == s.sessions.Keys + {token} && t.sessions[token].session == x
    && (forall v :: v in s.sessions && v != token ==> t.sessions[v] == s.sessions[v])
  }

  lemma SeatLeftVoices(s: State, t: State, ref: Ref, c: ConnId, u: UserId, token: Token, x: Session)
    requires OneVoice(s.conns) && Spoken(s.conns, s.rooms) && Waiting(s.conns) && OneHome(s.rooms)
             && SeatLeft(s, t, ref, c, u, token, x)
    ensures OneVoice(t.conns) && Spoken(t.conns, t.rooms) && Waiting(t.conns)
  {
    forall y, v, d | MemberIn(t.rooms, y, v) && d in t.conns && t.conns[d].id == v && !t.conns[d].detached
      ensures ActiveIn(t.rooms, y, v, d)
    {
      assert MemberIn(s.rooms, ref, u);
      assert MemberIn(s.rooms, y, v);
      assert ActiveIn(s.rooms, y, v, d);
    }
  }

  lemma SeatLeftDoomed(s: State, t: State, ref: Ref, c: ConnId, u: UserId, token: Token, x: Session)
    requires Doomed(s) && SeatLeft(s, t, ref, c, u, token, x)
    ensures Doomed(t)
  {
    forall y | y in t.expiring ensures Silent(t, y) {
      assert Silent(s, y);
      assert y.user != u;
      forall r | MemberIn(t.rooms, r, y.user) ensures y.user !in t.rooms[r].clients && t.rooms[r].away[y.user] == y {
        assert MemberIn(s.rooms, r, y.user);
      }
    }
  }

  lemma LinkingHome(s: State)
    requires Linking(s)
    ensures OneHome(s.rooms)
  {
    hide Linked, BackLinked, Applicants, Known, OneHome;
  }

  lemma DetachQuiet(s: State, c: ConnId, now: Time, spare: Token)
    requires Inv(s) && Quiet(s) && InRoom(s, c)
    ensures Quiet(DoDetach(s, c, now, spare))
  {
    hide Inv, LinkInv, OneVoice, Spoken, Waiting, Doomed, OneHome, Disconnected;
    ActiveAlways(s, c);
    InvLinking(s);
    LinkingHome(s);
    var t := DoDetach(s, c, now, spare);
    var k := s.conns[c];
    var ref := k.room.value;
    DisconnectedFields(s.rooms[ref], c, k.id, k.name, now);
    assert SeatLeft(s, t, ref, c, k.id, k.token.value, t.rooms[ref].away[k.id]);
    hide SeatLeft, DoDetach;
    SeatLeftVoices(s, t, ref, c, k.id, k.token.value, t.rooms[ref].away[k.id]);
    SeatLeftDoomed(s, t, ref, c, k.id, k.token.value, t.rooms[ref].away[k.id]);
  }

  /** A session whose token is taken has no voice left. */
  lemma TakenIsSilent(s: State, t: State, v: Token)
    requires Inv(s) && Spoken(s.conns, s.rooms) && v in s.sessions
    requires t.conns == s.conns && t.rooms == s.rooms && t.usedIds == s.usedIds && v !in t.sessions
    requires forall w :: w in t.sessions ==> w in s.sessions && t.sessions[w] == s.sessions[w]
    ensures Silent(t, s.sessions[v].session)
  {
    hide Inv, RoomsOk, ClosingInv, TokensOk, LinkInv, Spoken;
    InvParts(s);
    TokensBacked(s);
    TokensSeparate(s);
    var x := s.sessions[v].session;
    assert Stands(x, s.rooms, s.registry);
    var ref := s.registry[x.code];
    SeatFiled(s, ref, x.user);
    SeatUnspoken(s, ref, x.user);
    InvLinking(s);
    SeatHasNoClient(s, ref, x.user);
  }

  lemma TokensSeparate(s: State)
    requires TokensOk(s)
    ensures Separate(s.sessions)
  {
    hide Separate;
  }

  lemma SeatHasNoClient(s: State, ref: Ref, u: UserId)
    requires Linking(s) && ref in s.rooms && u in s.rooms[ref].away && u !in s.rooms[ref].clients
    requires forall x :: MemberIn(s.rooms, x, u) ==> x == ref
    ensures u in s.usedIds
    ensures forall c :: c in s.conns && s.conns[c].id == u ==> s.conns[c].room.None?
  {
    hide Linked, Applicants, OneHome;
    assert MemberIn(s.rooms, ref, u);
    assert forall x, c :: ActiveIn(s.rooms, x, u, c) ==> MemberIn(s.rooms, x, u);
  }

  lemma TakeQuiet(s: State, now: Time)
    requires Inv(s) && Quiet(s)
    ensures Quiet(DoTake(s, now))
  {
    hide Inv, OneVoice, Spoken, Waiting;
    var t := DoTake(s, now);
    forall x | x in t.expiring ensures Silent(t, x) {
      if x in s.expiring {
        assert Silent(s, x);
      } else {
        var v :| v in ExpiredTokens(s, now) && v in s.sessions && s.sessions[v].session == x;
        TakenIsSilent(s, t, v);
      }
    }
  }

  // ---- every step ----

  lemma JoinQuiet(s: State, c: ConnId, raw: Str, code: Code)
    requires Quiet(s) && c in s.conns && !s.conns[c].detached
    ensures Quiet(DoJoin(s, c, raw, code))
  {
    hide Quiet, Sanitize;
    var t := DoJoin(s, c, raw, code);
    if JoinHeard(s, c, raw, code) {
      var ref := s.registry[code];
      if JoinOk(s.rooms[ref], s.conns[c].id) { EbbPut(s, t, ref, t.rooms[ref]); } else { EbbSame(s, t); }
    }
  }

  lemma WithdrawQuiet(s: State, c: ConnId, ref: Ref, key: UserId)
    requires Quiet(s) && ref in s.rooms
    ensures Quiet(Withdrawn(s, c, ref, key))
  {
    hide Quiet;
    var t := Withdrawn(s, c, ref, key);
    EbbPut(s, t, ref, t.rooms[ref]);
  }

  lemma LeaveQuiet(s: State, c: ConnId, d: Option<ConnId>)
    requires Inv(s) && Quiet(s) && InRoom(s, c) && (d.Some? ==> d.value in s.conns)
    ensures Quiet(DoLeave(s, c, d))
  {
    hide Inv, Quiet, Left, Dead;
    ActiveAlways(s, c);
    var t := DoLeave(s, c, d);
    var ref := s.conns[c].room.value;
    LeftFields(s.rooms[ref], s.conns, c, s.conns[c].id, d);
    EbbPut(s, t, ref, t.rooms[ref]);
  }

  lemma KickQuiet(s: State, c: ConnId, u: UserId)
    requires Inv(s) && Quiet(s) && InRoom(s, c)
    ensures Quiet(DoKick(s, c, u))
  {
    hide Inv, Quiet, Kicked, TokensOf, Roster;
    if KickOk(s, c, u) {
      ActiveAlways(s, c);
      var ref := s.conns[c].room.value;
      SidesApart(s, ref);
      var t := DoKick(s, c, u);
      KickedFields(s.rooms[ref], u);
      EbbPut(s, t, ref, t.rooms[ref]);
    }
  }

  /** The room changes, its members do not. */
  lemma SeatingQuiet(s: State, t: State, ref: Ref, q: Room)
    requires Quiet(s) && ref in s.rooms && t.rooms == s.rooms[ref := q] && SameSeating(s.rooms[ref], q)
    requires t.conns == s.conns && t.expiring == s.expiring && t.usedIds == s.usedIds && t.sessions == s.sessions
    ensures Quiet(t)
  {
    hide Quiet;
    EbbPut(s, t, ref, q);
  }

  lemma ApproveQuiet(s: State, c: ConnId, key: UserId, token: Token)
    requires Inv(s) && Quiet(s) && InRoom(s, c) && Enabled(s, Approve(c, key, token))
             && Proper(s, Approve(c, key, token))
    ensures Quiet(DoApprove(s, c, key, token))
  {
    hide Inv, LinkInv, OneVoice, Spoken, Doomed, Newcomer, Admit, Withdrawn;
    if Answers(s, c, key) {
      InvLinking(s);
      var ref := s.conns[c].room.value;
      var j := s.rooms[ref].pending[key];
      ApplicantKnown(s, ref, key);
      if Admissible(s, c, key) {
        AdmitQuiet(s, DoApprove(s, c, key, token), j, ref, key, token);
      } else {
        WithdrawQuiet(s, j, ref, key);
      }
    }
  }

  lemma GuestQuiet(s: State, a: Step)
    requires Inv(s) && Quiet(s) && Enabled(s, a) && FromGuest(a) && Proper(s, a) && Disciplined(s, a)
    ensures Quiet(GuestStep(s, a))
  {
    hide Inv, Quiet, LinkInv, Deputy, Newcomer, Clock, DoSuggest, Sanitize, Created, DoJoin, DoRemovePending, DoCancel,
      DoLeave, DoDetach;
    InvLinking(s);
    match a
    case Connect(_, _, _) => ConnQuiet(s, a);
    case Measure(_, _) => ConnQuiet(s, a);
    case Close(_) => ConnQuiet(s, a);
    case Create(c, raw, code, ref, token, now) =>
      if CreateOk(s, c, raw, code) {
        CreateQuiet(s, GuestStep(s, a), c, Sanitize(raw, MAX_USERNAME), code, ref, token, now);
      }
    case Join(c, raw, code) => JoinQuiet(s, c, raw, code);
    case RemovePending(c) => RemovePendingQuiet(s, c);
    case Cancel(c, id) => CancelQuiet(s, c, id);
    case Leave(c, d) => LeaveQuiet(s, c, d);
    case Detach(c, now, token) => DetachQuiet(s, c, now, token);
    case Suggest(c, id, track) => SuggestQuiet(s, c, id, track);
  }

  lemma ConnQuiet(s: State, a: Step)
    requires Linking(s) && Quiet(s) && Enabled(s, a) && (a.Connect? || a.Measure? || a.Close?)
    ensures Quiet(GuestStep(s, a))
  {
    hide Quiet, LinkInv;
    var t := GuestStep(s, a);
    if a.Connect? { RenewQuiet(s, t, a.c, t.conns[a.c]); } else { EbbSame(s, t); }
  }

  lemma SuggestQuiet(s: State, c: ConnId, id: SuggestionId, track: Track)
    requires Quiet(s) && c in s.conns
    ensures Quiet(DoSuggest(s, c, id, track))
  {
    hide Quiet, CleanTrack, SuggestOk;
    var t := DoSuggest(s, c, id, track);
    if t != s { SeatingQuiet(s, t, s.conns[c].room.value, t.rooms[s.conns[c].room.value]); }
  }

  lemma HostQuiet(s: State, a: Step)
    requires Inv(s) && Quiet(s) && Enabled(s, a) && FromHost(a) && Proper(s, a)
    ensures Quiet(HostStep(s, a))
  {
    hide Inv, Quiet, Newcomer, Withdrawn, DoApprove, DoKick, DoTransfer, DoApproveSuggestion, DoRejectSuggestion,
      DoControl;
    match a
    case Approve(c, key, token) => ApproveQuiet(s, c, key, token);
    case RejectJoin(c, key) =>
      if Answers(s, c, key) { WithdrawQuiet(s, RoomOf(s, c).pending[key], s.conns[c].room.value, key); }
    case Kick(c, u) => KickQuiet(s, c, u);
    case Transfer(c, u) => TransferQuiet(s, c, u);
    case ApproveSuggestion(c, id, now) => ApproveSuggestionQuiet(s, c, id, now);
    case RejectSuggestion(c, id, reason) => RejectSuggestionQuiet(s, c, id, reason);
    case Control(c, m, now) => ControlQuiet(s, c, m, now);
  }

  lemma TransferQuiet(s: State, c: ConnId, u: UserId)
    requires Quiet(s) && InRoom(s, c)
    ensures Quiet(DoTransfer(s, c, u))
  {
    hide Quiet, Transferred;
    if TransferOk(s, c, u) {
      var t := DoTransfer(s, c, u);
      TransferredFields(RoomOf(s, c), s.conns, RoomOf(s, c).clients[u]);
      SeatingQuiet(s, t, s.conns[c].room.value, t.rooms[s.conns[c].room.value]);
    }
  }

  lemma ApproveSuggestionQuiet(s: State, c: ConnId, id: SuggestionId, now: int)
    requires Quiet(s) && InRoom(s, c)
    ensures Quiet(DoApproveSuggestion(s, c, id, now))
  {
    hide Quiet, Suggested, Resolved, Signed;
    var t := DoApproveSuggestion(s, c, id, now);
    if t != s {
      var x := RoomOf(s, c).suggestions[id];
      ResolvedFields(RoomOf(s, c), id, Approved(id, x.track.(suggestedBy := x.authorName)));
      SignedFields(RoomOf(s, c), id);
      SeatingQuiet(s, t, s.conns[c].room.value, t.rooms[s.conns[c].room.value]);
    }
  }

  lemma RejectSuggestionQuiet(s: State, c: ConnId, id: SuggestionId, reason: Str)
    requires Quiet(s) && c in s.conns
    ensures Quiet(DoRejectSuggestion(s, c, id, reason))
  {
    hide Quiet, Sanitize, Resolved;
    var t := DoRejectSuggestion(s, c, id, reason);
    if t != s {
      var ref := s.conns[c].room.value;
      ResolvedFields(s.rooms[ref], id, Rejected(id, Sanitize(reason, 200)));
      SeatingQuiet(s, t, ref, t.rooms[ref]);
    }
  }

  lemma ControlQuiet(s: State, c: ConnId, m: Request, now: int)
    requires Quiet(s) && InRoom(s, c)
    ensures Quiet(DoControl(s, c, m, now))
  {
    hide Quiet, Handle;
    var t := DoControl(s, c, m, now);
    if t != s { SeatingQuiet(s, t, s.conns[c].room.value, t.rooms[s.conns[c].room.value]); }
  }

  lemma ExpireQuiet(s: State, x: Session, d: Option<ConnId>)
    requires Quiet(s) && x.code in s.registry && s.registry[x.code] in s.rooms && (d.Some? ==> d.value in s.conns)
    ensures Quiet(DoExpire(s, x, d))
  {
    hide Quiet, Expired, Dead;
    var t := DoExpire(s, x, d);
    var ref := s.registry[x.code];
    if x.user in s.rooms[ref].away {
      ExpiredFields(s.rooms[ref], s.conns, x.user, d);
      EbbPut(s, t, ref, t.rooms[ref]);
    } else {
      EbbSame(s, t);
    }
  }

  lemma FailoverQuiet(s: State, ref: Ref, now: Time, d: Option<ConnId>)
    requires Quiet(s) && ref in s.rooms && (d.Some? ==> d.value in s.conns)
    ensures Quiet(DoFailover(s, ref, now, d))
  {
    hide Quiet, FailedOver;
    var t := DoFailover(s, ref, now, d);
    if t != s {
      FailedOverFields(s.rooms[ref], s.conns, d.value);
      SeatingQuiet(s, t, ref, t.rooms[ref]);
    }
  }

  lemma ConsumeStepQuiet(s: State, c: ConnId, ref: Ref)
    requires Inv(s) && Quiet(s) && c in s.attempts && ref in s.rooms
    ensures Quiet(DoConsume(s, c, ref))
  {
    hide Inv, Quiet, Consumed;
    if Succeeds(s, c, ref) { ConsumeQuiet(s, DoConsume(s, c, ref), c, ref); } else { EbbSame(s, DoConsume(s, c, ref)); }
  }

  lemma ServerQuiet(s: State, a: Step)
    requires Inv(s) && Quiet(s) && Enabled(s, a) && !FromGuest(a) && !FromHost(a)
    ensures Quiet(ServerStep(s, a))
  {
    hide Inv, Quiet, Deputy, DoConsume, DoTake, DoExpire, DoFailover, DoClaim, DoRelease, DoDelete, DoCloseRoom;
    var t := ServerStep(s, a);
    match a
    case Claim(c, v, now) => ClaimQuiet(s, c, v, now);
    case Lookup(c) => EbbSame(s, t);
    case DropToken(c) => EbbSame(s, t);
    case Consume(c, ref) => ConsumeStepQuiet(s, c, ref);
    case Release(c) => ReleaseQuiet(s, c);
    case Take(now) => TakeQuiet(s, now);
    case Expire(x, d) => ExpireQuiet(s, x, d);
    case ExpireStale(x) => EbbSame(s, t);
    case Failover(ref, now, d) => FailoverQuiet(s, ref, now, d);
    case Delete(ref) => DeleteQuiet(s, ref);
    case CloseRoom(ref) => CloseQuiet(s, ref);
  }

  lemma ClaimQuiet(s: State, c: ConnId, v: Token, now: Time)
    requires Quiet(s) && c in s.conns
    ensures Quiet(DoClaim(s, c, v, now))
  {
    hide Quiet;
    EbbSame(s, DoClaim(s, c, v, now));
  }

  lemma ReleaseQuiet(s: State, c: ConnId)
    requires Quiet(s) && c in s.attempts
    ensures Quiet(DoRelease(s, c))
  {
    hide Quiet;
    EbbSame(s, DoRelease(s, c));
  }

  lemma DeleteQuiet(s: State, ref: Ref)
    requires Quiet(s) && ref in s.rooms
    ensures Quiet(DoDelete(s, ref))
  {
    hide Quiet;
    var t := DoDelete(s, ref);
    if t != s { EbbPut(s, t, ref, t.rooms[ref]); }
  }

  lemma CloseQuiet(s: State, ref: Ref)
    requires Quiet(s) && ref in s.rooms
    ensures Quiet(DoCloseRoom(s, ref))
  {
    hide Quiet, Registered;
    var t := DoCloseRoom(s, ref);
    EbbPut(s, t, ref, t.rooms[ref]);
  }

  lemma StepQuiet(s: State, a: Step)
    requires Inv(s) && Quiet(s) && Enabled(s, a) && Proper(s, a) && Disciplined(s, a)
    ensures Quiet(Next(s, a))
  {
    hide Inv, Quiet, Enabled, Proper, Disciplined, GuestStep, HostStep, ServerStep;
    if FromGuest(a) {
      GuestQuiet(s, a);
    } else if FromHost(a) {
      HostQuiet(s, a);
    } else {
      ServerQuiet(s, a);
    }
  }

  // ---- whole runs ----

  ghost predicate AllDisciplined(s: State, run: seq<Step>)
    decreases |run|
  {
    run != [] && Enabled(s, run[0]) ==> Disciplined(s, run[0]) && AllDisciplined(Next(s, run[0]), run[1..])
  }

  /** Every run in which no detached connection starts again is regular: the
      invariant holds throughout, and nobody ever enters under a taken ID. */
  lemma {:induction false} DisciplineIsEnough(s: State, run: seq<Step>)
    requires Inv(s) && Quiet(s) && Possible(s, run) && AllDisciplined(s, run)
    ensures Regular(s, run) && Inv(After(s, run)) && Quiet(After(s, run))
    decreases |run|
  {
    hide Inv, Quiet, Enabled, Next, Proper, Disciplined;
    if run != [] {
      QuietIsProper(s, run[0]);
      StepKeeps(s, run[0]);
      StepQuiet(s, run[0]);
      DisciplineIsEnough(Next(s, run[0]), run[1..]);
    }
  }

  lemma {:induction false} LivesStartQuiet(s: State, es: seq<Epoch>)
    requires Quiet(s) && Endures(s, es)
    ensures Quiet(Latest(s, es))
    decreases |es|
  {
    hide CanLoad, Recoverable, Restored, After;
    if es != [] {
      assert Quiet(Rebooted(s, es[0]));
      LivesStartQuiet(Rebooted(s, es[0]), es[1..]);
    }
  }

  /** The rule suffices in every life of the server: a run that respects it never
      leaves the invariant. */
  lemma DisciplineInEveryLife(es: seq<Epoch>, run: seq<Step>)
    requires Endures(Empty, es) && Possible(Latest(Empty, es), run) && AllDisciplined(Latest(Empty, es), run)
    ensures Regular(Latest(Empty, es), run) && Inv(After(Latest(Empty, es), run))
  {
    hide Inv, Endures, Latest, Possible, Regular, After, AllDisciplined;
    var s := Latest(Empty, es);
    EmptyIsSound();
    assert Regular(s, []) && After(s, []) == s by { NoRun(s); }
    RestartsKeep(Empty, es, []);
    LivesStartQuiet(Empty, es);
    DisciplineIsEnough(s, run);
  }
}
