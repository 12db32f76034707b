/**
 Reconnect tokens at lock granularity: which tokens are stored, who holds a
 claim, and which sessions are already spent. Steps of reconnects, cleanup,
 kicks and disconnects interleave freely.
 */
module Tokens {
  import opened Base
  import opened Rooms
  import opened Links
  import opened Lobby
  import opened LobbyRooms
  import opened LobbyLinks

  type Sessions = map<Token, Entry>

  /** The session's seat is reserved in the room registered under its code. */
  predicate Stands(x: Session, rooms: Seating, registry: map<Code, Ref>)
  {
    && x.code in registry && registry[x.code] in rooms
    && x.user in rooms[registry[x.code]].away && rooms[registry[x.code]].away[x.user] == x
  }

  ghost predicate Backed(s: State)
  {
    forall t :: t in s.sessions ==> Stands(s.sessions[t].session, s.rooms, s.registry)
  }

  /** No user has two tokens, no session object two names. */
  ghost predicate Separate(ss: Sessions)
  {
    forall t, v :: t in ss && v in ss && t != v ==> ss[t].session.user != ss[v].session.user && ss[t].ref != ss[v].ref
  }

  ghost predicate HasToken(ss: Sessions, x: Session) { exists t :: t in ss && ss[t].session == x }

  /** Every reserved seat has its token, unless its expiry is in flight. */
  ghost predicate Covered(s: State)
  {
    forall ref, u :: ref in s.rooms && u in s.rooms[ref].away ==>
      HasToken(s.sessions, s.rooms[ref].away[u]) || s.rooms[ref].away[u] in s.expiring
  }

  /** An active member carries a token of its own, and it is not stored. */
  ghost predicate Carried(s: State)
  {
    && (forall c :: c in s.conns && s.conns[c].room.Some? ==>
          && s.conns[c].token.Some? && s.conns[c].token.value != []
          && s.conns[c].token.value !in s.sessions && s.conns[c].token.value in s.usedTokens)
    && (forall c, d :: c in s.conns && d in s.conns && c != d && s.conns[c].room.Some? && s.conns[d].room.Some? ==>
          s.conns[c].token != s.conns[d].token)
  }

  ghost predicate Issued(s: State)
  {
    && [] in s.usedTokens && [] !in s.sessions
    && forall t :: t in s.sessions ==> t in s.usedTokens && s.sessions[t].ref < s.nextSession
  }

  ghost predicate TokenInv(s: State)
  {
    Backed(s) && Separate(s.sessions) && Covered(s) && Carried(s) && Issued(s)
  }

  /** What a reconnect in flight may rely on. */
  ghost predicate Attempting(s: State, c: ConnId)
    requires c in s.attempts
  {
    var a := s.attempts[c];
    && c in s.conns && s.conns[c].room.None? && s.conns[c].pendingRoom.None?
    && (a.session.isHost ==> s.conns[c].allow)
    && a.token in s.usedTokens && a.ref < s.nextSession
    && (a.token in s.sessions ==> s.sessions[a.token].ref == a.ref && s.sessions[a.token].session == a.session && s.sessions[a.token].claimed)
    && (forall t :: t in s.sessions && s.sessions[t].ref == a.ref ==> t == a.token)
    && (forall d :: d in s.conns && s.conns[d].room.Some? ==> s.conns[d].token != Some(a.token))
    && (a.phase.NoRoom? ==> a.token !in s.sessions)
  }

  ghost predicate Held(s: State, t: Token) { exists c :: c in s.attempts && s.attempts[c].token == t }

  ghost predicate AllAttempting(s: State) { forall c :: c in s.attempts ==> Attempting(s, c) }

  /** No two attempts hold the same token or the same session. */
  ghost predicate OneHolder(attempts: map<ConnId, Attempt>)
  {
    forall c, d :: c in attempts && d in attempts && c != d ==>
      attempts[c].token != attempts[d].token && attempts[c].ref != attempts[d].ref
  }

  ghost predicate ClaimsHeld(s: State) { forall t :: t in s.sessions && s.sessions[t].claimed ==> Held(s, t) }

  /** A claimed session is held by exactly one attempt. */
  ghost predicate AttemptInv(s: State) { AllAttempting(s) && OneHolder(s.attempts) && ClaimsHeld(s) }

  ghost predicate OnFile(ss: Sessions, x: SessionRef) { exists t :: t in ss && ss[t].ref == x }

  /** Every session ever made is stored, consumed or revoked. */
  ghost predicate Accounted(s: State)
  {
    forall x: SessionRef :: x < s.nextSession ==> OnFile(s.sessions, x) || x in s.consumed || x in s.revoked
  }

  /** Spent sessions never come back: stored, consumed and revoked are disjoint. */
  ghost predicate HistoryInv(s: State)
  {
    && (forall t :: t in s.sessions ==> s.sessions[t].ref !in s.consumed && s.sessions[t].ref !in s.revoked)
    && s.consumed !! s.revoked
    && (forall x :: x in s.consumed || x in s.revoked ==> x < s.nextSession)
    && Accounted(s)
  }

  /** What a step stops storing it spends. */
  lemma AccountKeeps(s: State, t: State)
    requires Accounted(s)
    requires s.consumed <= t.consumed && s.revoked <= t.revoked
    requires forall v :: v in s.sessions ==>
               (v in t.sessions && t.sessions[v].ref == s.sessions[v].ref) || s.sessions[v].ref in t.consumed
               || s.sessions[v].ref in t.revoked
    requires t.nextSession == s.nextSession || (t.nextSession == s.nextSession + 1 && OnFile(t.sessions, s.nextSession))
    ensures Accounted(t)
  {
    forall x: SessionRef | x < t.nextSession ensures OnFile(t.sessions, x) || x in t.consumed || x in t.revoked {
      if x < s.nextSession && OnFile(s.sessions, x) {
        var v :| v in s.sessions && s.sessions[v].ref == x;
        assert (v in t.sessions && t.sessions[v].ref == x) || x in t.consumed || x in t.revoked;
      }
    }
  }

  ghost predicate TokensOk(s: State) { TokenInv(s) && AttemptInv(s) && HistoryInv(s) }

  // ---- steps that leave tokens and seats alone ----

  /** Nothing a token depends on changed; connections may come, and take other IDs. */
  ghost predicate TokenFrame(s: State, t: State)
  {
    && t.sessions == s.sessions && t.attempts == s.attempts && t.expiring == s.expiring
    && t.nextSession == s.nextSession
    && t.consumed == s.consumed && t.revoked == s.revoked && t.usedTokens == s.usedTokens && t.registry == s.registry
    && (forall ref :: ref in t.rooms <==> ref in s.rooms)
    && (forall ref :: ref in t.rooms ==> t.rooms[ref].away == s.rooms[ref].away)
    && (forall c :: c in s.conns ==> c in t.conns && SameCarrier(s.conns[c], t.conns[c], c in s.attempts))
    && (forall c :: c in t.conns && c !in s.conns ==> t.conns[c].room.None?)
  }

  predicate SameCarrier(k: Conn, k': Conn, busy: bool)
  {
    k'.token == k.token && k'.room == k.room && k'.allow == k.allow && (busy ==> k'.pendingRoom == k.pendingRoom)
  }

  lemma FrameTokenInv(s: State, t: State)
    requires TokenInv(s) && TokenFrame(s, t)
    ensures TokenInv(t)
  {
    hide Backed, Separate, Covered, Carried, Issued, TokenFrame;
    FrameSeats(s, t);
    FrameCarried(s, t);
  }

  lemma FrameSeats(s: State, t: State)
    requires Backed(s) && Covered(s) && TokenFrame(s, t)
    ensures Backed(t) && Covered(t)
  {
    hide HasToken;
  }

  lemma FrameCarried(s: State, t: State)
    requires Carried(s) && Issued(s) && TokenFrame(s, t)
    ensures Carried(t) && Issued(t) && t.sessions == s.sessions
  {
  }

  lemma FrameAttempts(s: State, t: State)
    requires AttemptInv(s) && TokenFrame(s, t)
    ensures AttemptInv(t)
  {
    forall c | c in t.attempts ensures Attempting(t, c) { assert Attempting(s, c); }
    forall v | v in t.sessions && t.sessions[v].claimed ensures Held(t, v) { assert Held(s, v); }
  }

  lemma FrameTokens(s: State, t: State)
    requires TokensOk(s) && TokenFrame(s, t)
    ensures TokensOk(t)
  {
    hide TokenInv, AttemptInv, Accounted;
    FrameTokenInv(s, t);
    FrameAttempts(s, t);
    AccountKeeps(s, t);
  }

  // ---- entering with a fresh token: create and approve ----

  /** c becomes active as u under a token nobody has seen. */
  ghost predicate Welcomed(s: State, t: State, c: ConnId, ref: Ref, token: Token)
  {
    && c in s.conns && s.conns[c].room.None? && c !in s.attempts && token !in s.usedTokens
    && t.conns.Keys == s.conns.Keys && t.conns[c].room == Some(ref) && t.conns[c].token == Some(token)
    && (forall d :: d in s.conns && d != c ==> t.conns[d] == s.conns[d])
    && t.sessions == s.sessions && t.attempts == s.attempts && t.expiring == s.expiring
    && t.nextSession == s.nextSession
    && t.consumed == s.consumed && t.revoked == s.revoked && t.usedTokens == s.usedTokens + {token}
    && (forall code :: code in s.registry ==> code in t.registry && t.registry[code] == s.registry[code])
    && ref in t.rooms && t.rooms.Keys == s.rooms.Keys + {ref}
    && (forall x :: x in s.rooms ==> t.rooms[x].away == s.rooms[x].away)
    && (ref !in s.rooms ==> t.rooms[ref].away == map[])
  }

  lemma WelcomeTokenInv(s: State, t: State, c: ConnId, ref: Ref, token: Token)
    requires TokenInv(s) && Welcomed(s, t, c, ref, token)
    ensures TokenInv(t)
  {
    hide HasToken;
    assert Backed(t);
    assert Covered(t);
    assert Carried(t);
    assert Issued(t);
  }

  lemma WelcomeAttempts(s: State, t: State, c: ConnId, ref: Ref, token: Token)
    requires AttemptInv(s) && Welcomed(s, t, c, ref, token)
    ensures AttemptInv(t)
  {
    forall d | d in t.attempts ensures Attempting(t, d) { assert Attempting(s, d); }
    forall v | v in t.sessions && t.sessions[v].claimed ensures Held(t, v) { assert Held(s, v); }
  }

  lemma WelcomeTokens(s: State, t: State, c: ConnId, ref: Ref, token: Token)
    requires TokensOk(s) && Welcomed(s, t, c, ref, token)
    ensures TokensOk(t)
  {
    assert Accounted(t) by { AccountKeeps(s, t); }
    hide Accounted;
    assert HistoryInv(t);
    hide TokenInv, AttemptInv, HistoryInv;
    WelcomeTokenInv(s, t, c, ref, token);
    WelcomeAttempts(s, t, c, ref, token);
  }

  // ---- leaving without a seat: leave, and the kick of an active member ----

  /** Tokens ts, which are not stored or whose seats go too, disappear; nobody enters. */
  ghost predicate Thinned(s: State, t: State, ts: set<Token>)
  {
    && (forall v :: v in t.sessions <==> v in s.sessions && v !in ts)
    && (forall v :: v in t.sessions ==> t.sessions[v] == s.sessions[v])
    && t.attempts == s.attempts && t.expiring <= s.expiring && t.nextSession == s.nextSession
    && t.consumed == s.consumed && t.revoked == s.revoked + Refs(s.sessions, ts)
    && t.usedTokens == s.usedTokens
    && t.conns.Keys == s.conns.Keys
    && (forall c :: c in s.conns ==> Stays(s.conns[c], t.conns[c], c in s.attempts))
    && t.rooms.Keys == s.rooms.Keys
    && (forall x, u :: x in t.rooms && u in t.rooms[x].away ==>
         u in s.rooms[x].away && t.rooms[x].away[u] == s.rooms[x].away[u])
  }

  predicate Stays(k: Conn, k': Conn, busy: bool)
  {
    && k'.token == k.token && k'.allow == k.allow
    && (k'.room == k.room || k'.room.None?) && (busy ==> k'.pendingRoom == k.pendingRoom)
  }

  lemma ThinCarried(s: State, t: State, ts: set<Token>)
    requires Carried(s) && Issued(s) && Separate(s.sessions) && Thinned(s, t, ts)
    ensures Carried(t) && Issued(t) && Separate(t.sessions)
  {
    hide Refs;
  }

  /** Backed and Covered say which seats go with which tokens; the rest follows. */
  lemma ThinTokenInv(s: State, t: State, ts: set<Token>)
    requires TokenInv(s) && Thinned(s, t, ts) && Backed(t) && Covered(t)
    ensures TokenInv(t)
  {
    hide Backed, Covered, Carried, Issued, Separate, Thinned;
    ThinCarried(s, t, ts);
  }

  lemma ThinAttempts(s: State, t: State, ts: set<Token>)
    requires AttemptInv(s) && Thinned(s, t, ts)
    ensures AttemptInv(t)
  {
    hide Refs;
    forall d | d in t.attempts ensures Attempting(t, d) { assert Attempting(s, d); }
    forall v | v in t.sessions && t.sessions[v].claimed ensures Held(t, v) { assert Held(s, v); }
  }

  lemma ThinHistory(s: State, t: State, ts: set<Token>)
    requires HistoryInv(s) && Separate(s.sessions) && Issued(s) && Thinned(s, t, ts)
    ensures HistoryInv(t)
  {
    forall v | v in t.sessions ensures t.sessions[v].ref !in Refs(s.sessions, ts) {
    }
    AccountKeeps(s, t);
  }

  lemma ThinTokens(s: State, t: State, ts: set<Token>)
    requires TokensOk(s) && Thinned(s, t, ts) && Backed(t) && Covered(t)
    ensures TokensOk(t)
  {
    hide Thinned, Backed, Covered, Carried, AttemptInv, HistoryInv, Separate, Issued;
    ThinTokenInv(s, t, ts);
    ThinAttempts(s, t, ts);
    ThinHistory(s, t, ts);
  }

  // ---- removing tokens and seats, step by step ----

  /** Reserved seats exist only in registered rooms, under their own names. */
  lemma SeatFiled(s: State, ref: Ref, u: UserId)
    requires RoomsOk(s) && ref in s.rooms && u in s.rooms[ref].away
    ensures Registered(s, ref)
    ensures s.rooms[ref].away[u].user == u && s.rooms[ref].away[u].code == s.rooms[ref].code
    ensures u !in s.rooms[ref].clients
    ensures forall x :: MemberIn(s.rooms, x, u) ==> x == ref
  {
    assert Registered(s, ref);
    assert RoomInv(s.rooms[ref], s.conns);
    Apart(s.rooms[ref], u);
    assert MemberIn(s.rooms, ref, u);
    hide Linked, BackLinked, Applicants, Known, HostInv, MailInv, RosterOf;
  }

  lemma SeatsFiled(s: State)
    requires RoomsOk(s)
    ensures forall ref, u :: ref in s.rooms && u in s.rooms[ref].away ==>
              && s.rooms[ref].away[u].user == u && s.rooms[ref].away[u].code == s.rooms[ref].code && Registered(s, ref)
  {
    hide RegInv, RoomsInv, LinkInv;
    forall ref, u | ref in s.rooms && u in s.rooms[ref].away
      ensures s.rooms[ref].away[u].user == u && s.rooms[ref].away[u].code == s.rooms[ref].code && Registered(s, ref)
    {
      SeatFiled(s, ref, u);
    }
  }

  /** Only active membership ended. */
  lemma DepartTokens(s: State, t: State, ts: set<Token>)
    requires TokensOk(s) && Thinned(s, t, ts) && t.registry == s.registry && t.expiring == s.expiring
    requires forall x :: x in s.rooms ==> t.rooms[x].away == s.rooms[x].away
    requires forall v :: v in ts ==> v !in s.sessions
    ensures TokensOk(t)
  {
    assert Backed(t);
    assert Covered(t) by {
      assert forall v :: v in s.sessions ==> v in t.sessions;
      forall ref, u | ref in t.rooms && u in t.rooms[ref].away
        ensures HasToken(t.sessions, t.rooms[ref].away[u]) || t.rooms[ref].away[u] in t.expiring
      {
        var x := s.rooms[ref].away[u];
        if x !in s.expiring {
          var v :| v in s.sessions && s.sessions[v].session == x;
          assert v in t.sessions && t.sessions[v].session == x;
        }
      }
    }
    hide TokensOk, Thinned;
    ThinTokens(s, t, ts);
  }

  /** One reserved seat and its tokens go together; the seat's user is u in room ref. */
  ghost predicate Unseated(s: State, t: State, ref: Ref, u: UserId, ts: set<Token>)
  {
    && ref in s.rooms && u in s.rooms[ref].away && t.registry == s.registry && t.rooms.Keys == s.rooms.Keys
    && t.rooms[ref].away == s.rooms[ref].away - {u}
    && (forall x :: x in s.rooms && x != ref ==> t.rooms[x].away == s.rooms[x].away)
    && (forall v :: v in ts ==> v in s.sessions && s.sessions[v].session.user == u)
    && (forall v :: v in s.sessions && s.sessions[v].session.user == u ==> v in ts)
    && (forall x :: x in s.expiring && x !in t.expiring ==> x.user == u)
  }

  lemma UnseatStands(s: State, t: State, ref: Ref, u: UserId, x: Session)
    requires Stands(x, s.rooms, s.registry) && x.user != u && t.registry == s.registry && t.rooms.Keys == s.rooms.Keys
    requires ref in s.rooms && t.rooms[ref].away == s.rooms[ref].away - {u}
    requires forall y :: y in s.rooms && y != ref ==> t.rooms[y].away == s.rooms[y].away
    ensures Stands(x, t.rooms, t.registry)
  {
  }

  lemma UnseatBacked(s: State, t: State, ref: Ref, u: UserId, ts: set<Token>)
    requires Backed(s) && Thinned(s, t, ts) && Unseated(s, t, ref, u, ts)
    ensures Backed(t)
  {
    hide Refs, Stands;
    forall v | v in t.sessions ensures Stands(t.sessions[v].session, t.rooms, t.registry) {
      UnseatStands(s, t, ref, u, s.sessions[v].session);
    }
  }

  lemma UnseatCovered(s: State, t: State, ref: Ref, u: UserId, ts: set<Token>)
    requires RoomsOk(s) && Covered(s) && Thinned(s, t, ts) && Unseated(s, t, ref, u, ts)
    ensures Covered(t)
  {
    hide RegInv, RoomsInv, LinkInv, Refs;
    forall x, w | x in t.rooms && w in t.rooms[x].away
      ensures HasToken(t.sessions, t.rooms[x].away[w]) || t.rooms[x].away[w] in t.expiring
    {
      var y := s.rooms[x].away[w];
      SeatFiled(s, x, w);
      SeatFiled(s, ref, u);
      assert MemberIn(s.rooms, x, w);
      assert w != u;
      if y !in s.expiring {
        var v :| v in s.sessions && s.sessions[v].session == y;
        assert v in t.sessions && t.sessions[v].session == y;
      }
    }
  }

  lemma UnseatTokens(s: State, t: State, ref: Ref, u: UserId, ts: set<Token>)
    requires RoomsOk(s) && TokensOk(s) && Thinned(s, t, ts) && Unseated(s, t, ref, u, ts)
    ensures TokensOk(t)
  {
    hide RoomsOk, Thinned, Unseated, AttemptInv, HistoryInv, Backed, Covered, Carried, Issued, Separate;
    UnseatBacked(s, t, ref, u, ts);
    UnseatCovered(s, t, ref, u, ts);
    ThinTokens(s, t, ts);
  }

  /** A room without reserved seats leaves the registry; it had no tokens. */
  lemma UnregisterTokens(s: State, t: State, ref: Ref, ts: set<Token>)
    requires TokensOk(s) && Thinned(s, t, ts) && Registered(s, ref) && s.rooms[ref].away == map[]
    requires t.registry == s.registry - {s.rooms[ref].code} && t.expiring == s.expiring
    requires forall x :: x in s.rooms ==> t.rooms[x].away == s.rooms[x].away
    requires forall v :: v in ts && v in s.sessions ==> s.sessions[v].session.code == s.rooms[ref].code
    ensures TokensOk(t)
  {
    assert NoTokens(s, s.rooms[ref].code) by { hide TokenInv, AttemptInv, HistoryInv; NoSeatsNoTokens(s, ref); }
    UnregisterBacked(s, t, ref, ts);
    UnregisterCovered(s, t, ref, ts);
    hide TokensOk, Thinned, Backed, Covered;
    ThinTokens(s, t, ts);
  }

  ghost predicate NoTokens(s: State, code: Code)
  {
    forall v :: v in s.sessions ==> s.sessions[v].session.code != code
  }

  lemma NoSeatsNoTokens(s: State, ref: Ref)
    requires TokensOk(s) && Registered(s, ref) && s.rooms[ref].away == map[]
    ensures NoTokens(s, s.rooms[ref].code)
  {
    hide Separate, Covered, Carried, Issued, AttemptInv, HistoryInv;
    forall v | v in s.sessions ensures s.sessions[v].session.code != s.rooms[ref].code {
      assert Stands(s.sessions[v].session, s.rooms, s.registry);
    }
  }

  lemma UnregisterBacked(s: State, t: State, ref: Ref, ts: set<Token>)
    requires Backed(s) && Thinned(s, t, ts) && ref in s.rooms && NoTokens(s, s.rooms[ref].code)
    requires t.registry == s.registry - {s.rooms[ref].code}
    requires forall x :: x in s.rooms ==> t.rooms[x].away == s.rooms[x].away
    ensures Backed(t)
  {
    hide Refs;
    forall v | v in t.sessions ensures Stands(t.sessions[v].session, t.rooms, t.registry) {
      assert Stands(s.sessions[v].session, s.rooms, s.registry);
    }
  }

  lemma UnregisterCovered(s: State, t: State, ref: Ref, ts: set<Token>)
    requires Covered(s) && Thinned(s, t, ts) && ref in s.rooms && NoTokens(s, s.rooms[ref].code)
             && t.expiring == s.expiring
    requires forall x :: x in s.rooms ==> t.rooms[x].away == s.rooms[x].away
    requires forall v :: v in ts && v in s.sessions ==> s.sessions[v].session.code == s.rooms[ref].code
    ensures Covered(t)
  {
    hide Refs;
    forall x, u | x in t.rooms && u in t.rooms[x].away
      ensures HasToken(t.sessions, t.rooms[x].away[u]) || t.rooms[x].away[u] in t.expiring
    {
      var y := s.rooms[x].away[u];
      if y !in s.expiring {
        var v :| v in s.sessions && s.sessions[v].session == y;
        assert v in t.sessions && t.sessions[v].session == y;
      }
    }
  }

  // ---- a disconnect stores a token ----

  /** The facts a disconnect relies on: who leaves, and that the ID is new among the seats. */
  ghost predicate Departing(s: State, c: ConnId, ref: Ref)
  {
    && c in s.conns && c !in s.attempts && s.conns[c].room == Some(ref) && Registered(s, ref)
    && ActiveIn(s.rooms, ref, s.conns[c].id, c)
    && (forall x :: MemberIn(s.rooms, x, s.conns[c].id) ==> x == ref)
    && s.conns[c].id !in s.rooms[ref].away
  }

  /** Nobody's stored token bears the ID of an active member. */
  lemma ActiveHasNoToken(s: State, c: ConnId, ref: Ref, v: Token)
    requires Backed(s) && Departing(s, c, ref) && v in s.sessions
    ensures s.sessions[v].session.user != s.conns[c].id
  {
    var x := s.sessions[v].session;
    assert Stands(x, s.rooms, s.registry);
    assert MemberIn(s.rooms, s.registry[x.code], x.user);
  }

  lemma DetachBacked(s: State, c: ConnId, ref: Ref, token: Token, now: Time)
    requires Backed(s) && Separate(s.sessions) && Issued(s) && Departing(s, c, ref) && token !in s.sessions
    ensures var t := Detached(s, c, ref, token, now); Backed(t) && Separate(t.sessions)
  {
    hide Disconnected;
    var t := Detached(s, c, ref, token, now);
    var u := s.conns[c].id;
    DisconnectedFields(s.rooms[ref], c, u, s.conns[c].name, now);
    forall v | v in s.sessions
      ensures Stands(s.sessions[v].session, t.rooms, t.registry) && s.sessions[v].session.user != u
    {
      ActiveHasNoToken(s, c, ref, v);
      assert Stands(s.sessions[v].session, s.rooms, s.registry);
    }
  }

  lemma DetachCovered(s: State, c: ConnId, ref: Ref, token: Token, now: Time)
    requires Covered(s) && Departing(s, c, ref) && token !in s.sessions
    ensures Covered(Detached(s, c, ref, token, now))
  {
    hide Disconnected;
    var t := Detached(s, c, ref, token, now);
    var u := s.conns[c].id;
    DisconnectedFields(s.rooms[ref], c, u, s.conns[c].name, now);
    forall x, w | x in t.rooms && w in t.rooms[x].away
      ensures HasToken(t.sessions, t.rooms[x].away[w]) || t.rooms[x].away[w] in t.expiring
    {
      if x == ref && w == u {
        assert t.sessions[token].session == t.rooms[x].away[w];
      } else {
        var y := s.rooms[x].away[w];
        assert t.rooms[x].away[w] == y;
        if y !in s.expiring {
          var v :| v in s.sessions && s.sessions[v].session == y;
          assert v in t.sessions && t.sessions[v].session == y;
        }
      }
    }
  }

  lemma DetachCarried(s: State, c: ConnId, ref: Ref, token: Token, now: Time)
    requires Carried(s) && Issued(s) && Departing(s, c, ref) && s.conns[c].token == Some(token)
    ensures var t := Detached(s, c, ref, token, now); Carried(t) && Issued(t)
  {
    hide Disconnected;
  }

  lemma DetachAttempts(s: State, c: ConnId, ref: Ref, token: Token, now: Time)
    requires AttemptInv(s) && Departing(s, c, ref) && s.conns[c].token == Some(token) && token in s.usedTokens
    ensures AttemptInv(Detached(s, c, ref, token, now))
  {
    hide Disconnected;
    var t := Detached(s, c, ref, token, now);
    forall d | d in t.attempts ensures Attempting(t, d) { assert Attempting(s, d); }
    forall v | v in t.sessions && t.sessions[v].claimed ensures Held(t, v) { assert Held(s, v); }
  }

  lemma DetachHistory(s: State, c: ConnId, ref: Ref, token: Token, now: Time)
    requires HistoryInv(s) && Issued(s) && c in s.conns && ref in s.rooms && token !in s.sessions
    ensures HistoryInv(Detached(s, c, ref, token, now))
  {
    hide Disconnected;
    var t := Detached(s, c, ref, token, now);
    assert Accounted(t) by {
      assert t.sessions[token].ref == s.nextSession;
      AccountKeeps(s, t);
    }
    hide Accounted;
  }

  lemma DetachTokens(s: State, c: ConnId, ref: Ref, token: Token, now: Time)
    requires TokensOk(s) && Departing(s, c, ref) && s.conns[c].token == Some(token)
    ensures TokensOk(Detached(s, c, ref, token, now))
  {
    assert token in s.usedTokens && token !in s.sessions;
    assert HistoryInv(Detached(s, c, ref, token, now)) by { hide Detached; DetachHistory(s, c, ref, token, now); }
    hide Detached, Departing, AttemptInv, HistoryInv, Backed, Covered, Carried, Issued, Separate;
    DetachBacked(s, c, ref, token, now);
    DetachCovered(s, c, ref, token, now);
    DetachCarried(s, c, ref, token, now);
    DetachAttempts(s, c, ref, token, now);
  }

  // ---- reconnects: claim, look up, consume, release ----

  /** Only claims changed. */
  ghost predicate Reclaimed(s: State, t: State)
  {
    && t.conns == s.conns && t.rooms == s.rooms && t.registry == s.registry && t.expiring == s.expiring
    && t.usedIds == s.usedIds && t.usedTokens == s.usedTokens && t.nextSession == s.nextSession
    && t.consumed == s.consumed && t.revoked == s.revoked
    && (forall v :: v in t.sessions <==> v in s.sessions)
    && (forall v :: v in s.sessions ==> t.sessions[v].session == s.sessions[v].session && t.sessions[v].ref == s.sessions[v].ref)
  }

  lemma ReclaimCovered(s: State, t: State)
    requires Covered(s) && Reclaimed(s, t)
    ensures Covered(t)
  {
    forall ref, u | ref in t.rooms && u in t.rooms[ref].away
      ensures HasToken(t.sessions, t.rooms[ref].away[u]) || t.rooms[ref].away[u] in t.expiring
    {
      if s.rooms[ref].away[u] !in s.expiring {
        var v :| v in s.sessions && s.sessions[v].session == s.rooms[ref].away[u];
        assert v in t.sessions && t.sessions[v].session == s.rooms[ref].away[u];
      }
    }
  }

  lemma ReclaimHistory(s: State, t: State)
    requires HistoryInv(s) && Reclaimed(s, t)
    ensures HistoryInv(t)
  {
    AccountKeeps(s, t);
    hide Accounted;
  }

  lemma ReclaimSimple(s: State, t: State)
    requires Backed(s) && Separate(s.sessions) && Carried(s) && Issued(s) && Reclaimed(s, t)
    ensures Backed(t) && Separate(t.sessions) && Carried(t) && Issued(t)
  {
  }

  lemma ReclaimTokens(s: State, t: State)
    requires TokenInv(s) && HistoryInv(s) && Reclaimed(s, t)
    ensures TokenInv(t) && HistoryInv(t)
  {
    hide Backed, Separate, Covered, Carried, Issued, HistoryInv, Reclaimed;
    ReclaimSimple(s, t);
    ReclaimCovered(s, t);
    ReclaimHistory(s, t);
  }

  lemma ClaimTokens(s: State, c: ConnId, v: Token, now: Time)
    requires TokensOk(s) && c in s.conns && c !in s.attempts && ClaimOk(s, c, v, now)
    ensures TokensOk(Claimed(s, c, v))
  {
    hide TokenInv, AttemptInv, HistoryInv;
    assert Reclaimed(s, Claimed(s, c, v));
    hide Claimed, Reclaimed;
    ReclaimTokens(s, Claimed(s, c, v));
    ClaimAttempts(s, c, v, now);
  }

  lemma ClaimIsFree(s: State, c: ConnId, v: Token, now: Time, d: ConnId)
    requires AllAttempting(s) && c in s.conns && ClaimOk(s, c, v, now) && d in s.attempts
    ensures s.attempts[d].token != v && s.attempts[d].ref != s.sessions[v].ref
  {
    assert Attempting(s, d);
  }

  lemma ClaimAttempting(s: State, c: ConnId, v: Token, now: Time)
    requires AllAttempting(s) && Carried(s) && Issued(s) && Separate(s.sessions)
    requires c in s.conns && c !in s.attempts && ClaimOk(s, c, v, now)
    ensures AllAttempting(Claimed(s, c, v))
  {
    var t := Claimed(s, c, v);
    forall d | d in t.attempts ensures Attempting(t, d) {
      if d != c {
        assert Attempting(s, d);
        ClaimIsFree(s, c, v, now, d);
      }
    }
  }

  lemma ClaimAttempts(s: State, c: ConnId, v: Token, now: Time)
    requires AttemptInv(s) && TokenInv(s)
    requires c in s.conns && c !in s.attempts && ClaimOk(s, c, v, now)
    ensures AttemptInv(Claimed(s, c, v))
  {
    hide TokenInv, AllAttempting;
    var t := Claimed(s, c, v);
    assert AllAttempting(t) by { hide ClaimsHeld, OneHolder, Claimed; ClaimParts(s); ClaimAttempting(s, c, v, now); }
    forall d | d in s.attempts ensures s.attempts[d].token != v && s.attempts[d].ref != s.sessions[v].ref {
      ClaimIsFree(s, c, v, now, d);
    }
    forall w | w in t.sessions && t.sessions[w].claimed ensures Held(t, w) {
      if w == v {
        assert t.attempts[c].token == w;
      } else {
        assert Held(s, w);
        var d :| d in s.attempts && s.attempts[d].token == w;
        assert t.attempts[d].token == w;
      }
    }
  }

  lemma ClaimParts(s: State)
    requires TokenInv(s)
    ensures Carried(s) && Issued(s) && Separate(s.sessions)
  {
    hide Backed, Separate, Covered, Carried, Issued;
  }

  /** A phase change keeps everything but the phase. */
  lemma PhaseTokens(s: State, t: State, c: ConnId, phase: Phase)
    requires TokensOk(s) && c in s.attempts && t == s.(attempts := s.attempts[c := s.attempts[c].(phase := phase)])
    requires phase.NoRoom? ==> s.attempts[c].token !in s.sessions
    ensures TokensOk(t)
  {
    hide TokenInv, HistoryInv;
    assert TokenInv(t) && HistoryInv(t) by { ReclaimTokens(s, t); }
    assert AllAttempting(t) by {
      forall d | d in t.attempts ensures Attempting(t, d) { assert Attempting(s, d); }
    }
    assert ClaimsHeld(t) by {
      forall w | w in t.sessions && t.sessions[w].claimed ensures Held(t, w) {
        assert Held(s, w);
        var d :| d in s.attempts && s.attempts[d].token == w;
        assert t.attempts[d].token == w;
      }
    }
  }

  /** A reconnect that finds no room registered holds a token that is already gone. */
  lemma LookupTokens(s: State, c: ConnId)
    requires TokensOk(s) && c in s.attempts && s.attempts[c].session.code !in s.registry
    ensures s.attempts[c].token !in s.sessions
    ensures TokensOk(DoLookup(s, c))
  {
    assert Attempting(s, c);
    assert forall v :: v in s.sessions ==> Stands(s.sessions[v].session, s.rooms, s.registry);
    hide TokensOk;
    PhaseTokens(s, DoLookup(s, c), c, NoRoom);
  }

  lemma ReleaseTokens(s: State, c: ConnId)
    requires TokensOk(s) && c in s.attempts
    ensures TokensOk(DoRelease(s, c))
  {
    hide TokenInv, AttemptInv, HistoryInv;
    assert Reclaimed(s, DoRelease(s, c));
    hide DoRelease, Reclaimed;
    ReclaimTokens(s, DoRelease(s, c));
    ReleaseAttempts(s, c);
  }

  /** The released claim can be taken again, and every other claim stays held. */
  lemma ReleaseAttempts(s: State, c: ConnId)
    requires AttemptInv(s) && c in s.attempts
    ensures AttemptInv(DoRelease(s, c))
    ensures var v := s.attempts[c].token; v in s.sessions ==> !DoRelease(s, c).sessions[v].claimed
  {
    var t := DoRelease(s, c);
    assert Attempting(s, c);
    forall d | d in t.attempts ensures Attempting(t, d) { assert Attempting(s, d); }
    forall w | w in t.sessions && t.sessions[w].claimed ensures Held(t, w) {
      assert Held(s, w);
      var d :| d in s.attempts && s.attempts[d].token == w;
      assert d != c;
      assert t.attempts[d].token == w;
    }
  }

  /** What a successful reconnect found: its own session's seat, in the registered room. */
  ghost predicate Admitting(s: State, c: ConnId, ref: Ref)
  {
    && c in s.attempts && ref in s.rooms && Succeeds(s, c, ref)
    && s.sessions[s.attempts[c].token].session == s.attempts[c].session
    && Registered(s, ref) && s.rooms[ref].code == s.attempts[c].session.code
    && s.rooms[ref].away[s.attempts[c].session.user] == s.attempts[c].session
    && (forall x :: MemberIn(s.rooms, x, s.attempts[c].session.user) ==> x == ref)
  }

  lemma SuccessIsOwn(s: State, c: ConnId, ref: Ref)
    requires RoomsOk(s) && TokensOk(s) && c in s.attempts && ref in s.rooms && Succeeds(s, c, ref)
    requires s.rooms[ref].code == s.attempts[c].session.code
    ensures Admitting(s, c, ref)
  {
    var a := s.attempts[c];
    hide RoomsOk, Separate, Covered, Carried, Issued, HistoryInv, OneHolder, ClaimsHeld;
    assert Attempting(s, c);
    SeatFiled(s, ref, a.session.user);
    assert Stands(s.sessions[a.token].session, s.rooms, s.registry);
  }

  lemma ConsumeBacked(s: State, c: ConnId, ref: Ref)
    requires Backed(s) && Separate(s.sessions) && Admitting(s, c, ref)
    ensures Backed(Consumed(s, c, ref))
  {
    hide Rejoined;
    var t := Consumed(s, c, ref);
    var a := s.attempts[c];
    RejoinedFields(s.rooms[ref], t.conns, c, a.session.user);
    forall v | v in t.sessions ensures Stands(t.sessions[v].session, t.rooms, t.registry) {
      assert Stands(s.sessions[v].session, s.rooms, s.registry);
      assert s.sessions[v].session.user != a.session.user;
    }
  }

  lemma ConsumeCovered(s: State, c: ConnId, ref: Ref)
    requires RoomsOk(s) && Covered(s) && Separate(s.sessions) && Admitting(s, c, ref)
    ensures Covered(Consumed(s, c, ref))
  {
    hide Rejoined, RoomsOk;
    var t := Consumed(s, c, ref);
    var a := s.attempts[c];
    RejoinedFields(s.rooms[ref], t.conns, c, a.session.user);
    forall x, w | x in t.rooms && w in t.rooms[x].away
      ensures HasToken(t.sessions, t.rooms[x].away[w]) || t.rooms[x].away[w] in t.expiring
    {
      var y := s.rooms[x].away[w];
      assert t.rooms[x].away[w] == y;
      SeatFiled(s, x, w);
      assert MemberIn(s.rooms, x, w);
      if y !in s.expiring {
        var v :| v in s.sessions && s.sessions[v].session == y;
        assert v in t.sessions && t.sessions[v].session == y;
      }
    }
  }

  lemma ConsumeCarried(s: State, c: ConnId, ref: Ref)
    requires Carried(s) && Issued(s) && Separate(s.sessions) && Admitting(s, c, ref) && Attempting(s, c)
    ensures var t := Consumed(s, c, ref); Carried(t) && Issued(t) && Separate(t.sessions)
  {
    hide Rejoined;
  }

  lemma ConsumeAttempts(s: State, c: ConnId, ref: Ref)
    requires AttemptInv(s) && Admitting(s, c, ref)
    ensures AttemptInv(Consumed(s, c, ref))
  {
    hide Rejoined;
    var t := Consumed(s, c, ref);
    assert AllAttempting(t) by {
      forall d | d in t.attempts ensures Attempting(t, d) { assert Attempting(s, d); }
    }
    assert OneHolder(t.attempts);
    assert ClaimsHeld(t) by {
      hide AllAttempting;
      forall w | w in t.sessions && t.sessions[w].claimed ensures Held(t, w) {
        assert Held(s, w);
        var d :| d in s.attempts && s.attempts[d].token == w;
        assert t.attempts[d].token == w;
      }
    }
  }

  lemma ConsumeHistory(s: State, c: ConnId, ref: Ref)
    requires HistoryInv(s) && Separate(s.sessions) && Issued(s) && Admitting(s, c, ref)
    ensures HistoryInv(Consumed(s, c, ref))
    ensures s.attempts[c].ref !in s.consumed && s.attempts[c].ref !in s.revoked
  {
    hide Rejoined;
    assert Accounted(Consumed(s, c, ref)) by { AccountKeeps(s, Consumed(s, c, ref)); }
    hide Accounted;
  }

  lemma AttemptsHold(s: State, c: ConnId)
    requires AttemptInv(s) && c in s.attempts
    ensures Attempting(s, c)
  {
  }

  lemma ConsumeTokens(s: State, c: ConnId, ref: Ref)
    requires RoomsOk(s) && TokensOk(s) && Admitting(s, c, ref)
    ensures TokensOk(Consumed(s, c, ref))
    ensures s.attempts[c].ref !in s.consumed && s.attempts[c].ref !in s.revoked
  {
    hide Consumed, RoomsOk, AttemptInv, HistoryInv, Backed, Covered, Carried, Issued, Separate, Attempting;
    AttemptsHold(s, c);
    ConsumeHistory(s, c, ref);
    ConsumeBacked(s, c, ref);
    ConsumeCovered(s, c, ref);
    ConsumeCarried(s, c, ref);
    ConsumeAttempts(s, c, ref);
  }

  // ---- cleanup takes tokens first and seats later ----

  lemma TakeCovered(s: State, now: Time)
    requires Covered(s)
    ensures Covered(DoTake(s, now))
  {
    hide Refs;
    var t := DoTake(s, now);
    forall ref, u | ref in t.rooms && u in t.rooms[ref].away
      ensures HasToken(t.sessions, t.rooms[ref].away[u]) || t.rooms[ref].away[u] in t.expiring
    {
      var y := s.rooms[ref].away[u];
      if y !in s.expiring {
        var v :| v in s.sessions && s.sessions[v].session == y;
        if v !in ExpiredTokens(s, now) {
          assert v in t.sessions && t.sessions[v].session == y;
        }
      }
    }
  }

  lemma TakeAttempts(s: State, now: Time)
    requires AttemptInv(s)
    ensures AttemptInv(DoTake(s, now))
  {
    hide Refs, ExpiredTokens;
    var t := DoTake(s, now);
    assert AllAttempting(t) by {
      forall d | d in t.attempts ensures Attempting(t, d) { assert Attempting(s, d); }
    }
    assert ClaimsHeld(t) by {
      forall w | w in t.sessions && t.sessions[w].claimed ensures Held(t, w) { assert Held(s, w); }
    }
  }

  lemma TakeHistory(s: State, now: Time)
    requires HistoryInv(s) && Separate(s.sessions) && Issued(s)
    ensures HistoryInv(DoTake(s, now))
  {
    hide ExpiredTokens;
    assert Accounted(DoTake(s, now)) by { AccountKeeps(s, DoTake(s, now)); }
    hide Accounted;
  }

  lemma TakeTokens(s: State, now: Time)
    requires RoomsOk(s) && TokensOk(s)
    ensures TokensOk(DoTake(s, now))
  {
    assert Backed(DoTake(s, now)) && Separate(DoTake(s, now).sessions) && Carried(DoTake(s, now))
           && Issued(DoTake(s, now)) by {
      hide RoomsOk, Covered, AttemptInv, HistoryInv, Refs, ExpiredTokens;
    }
    hide DoTake, RoomsOk, Backed, Separate, Covered, Carried, Issued, AttemptInv, HistoryInv;
    TakeCovered(s, now);
    TakeAttempts(s, now);
    TakeHistory(s, now);
  }
}
