/**
 What each step achieves, field by field: who may take it, what it changes, and
 that it changes nothing else. Lists are described entry by entry, and whoever is
 refused finds the state as it was.
 */
module Effects {
  import opened Base
  import opened Text
  import opened Tracks
  import opened Playback
  import opened Rooms
  import opened Links
  import opened Lobby
  import opened LobbyRooms
  import opened LobbyLinks
  import opened Tokens
  import opened LobbyRuns
  import opened LobbyTimers
  import opened Runs
  import opened Journeys

  // ---- the user list ----

  /** The same entries, with exactly this host flagged. */
  predicate Reflagged(us: seq<UserInfo>, vs: seq<UserInfo>, host: Option<UserId>)
  {
    |vs| == |us| && forall i :: 0 <= i < |us| ==> vs[i] == us[i].(isHost := host == Some(us[i].id))
  }

  /** The same entries, with u marked connected or not. */
  predicate Remarked(us: seq<UserInfo>, vs: seq<UserInfo>, u: UserId, on: bool)
  {
    |vs| == |us| && forall i :: 0 <= i < |us| ==> vs[i] == if us[i].id == u then us[i].(isConnected := on) else us[i]
  }

  /** The same entries without u's. */
  ghost predicate Struck(us: seq<UserInfo>, vs: seq<UserInfo>, u: UserId)
  {
    exists k :: 0 <= k < |us| && us[k].id == u && vs == us[..k] + us[k + 1..]
  }

  lemma FlagMeans(us: seq<UserInfo>, host: Option<UserId>)
    ensures Reflagged(us, FlagHost(us, host), host)
  {
    FlagHostAt(us, host);
  }

  lemma {:induction false} MarkMeans(us: seq<UserInfo>, on: set<UserId>, host: Option<UserId>, u: UserId, b: bool)
    requires WellListed(us, on, host)
    ensures Remarked(us, MarkUser(us, u, b), u, b)
  {
    if us != [] {
      MarkMeans(us[1..], on, host, u, b);
      WellListedMeans(us, on, host);
      assert us[0].id != u ==> MarkUser(us, u, b)[1..] == MarkUser(us[1..], u, b);
    }
  }

  lemma {:induction false} StrikeMeans(us: seq<UserInfo>, on: set<UserId>, host: Option<UserId>, u: UserId)
    requires WellListed(us, on, host) && u in Listed(us)
    ensures Struck(us, WithoutUser(us, u), u)
  {
    if us[0].id == u {
      Unlisted(us[1..], u);
      assert us[0].id == u && us[..0] + us[1..] == us[1..];
    } else {
      StrikeMeans(us[1..], on, host, u);
      StruckBehind(us, WithoutUser(us[1..], u), u);
    }
  }

  lemma StruckBehind(us: seq<UserInfo>, vs: seq<UserInfo>, u: UserId)
    requires us != [] && Struck(us[1..], vs, u)
    ensures Struck(us, [us[0]] + vs, u)
  {
    var k :| 0 <= k < |us[1..]| && us[1..][k].id == u && vs == us[1..][..k] + us[1..][k + 1..];
    assert us[k + 1].id == u && [us[0]] + vs == us[..k + 1] + us[k + 1 + 1..];
  }

  lemma {:induction false} Unlisted(us: seq<UserInfo>, u: UserId)
    requires u !in Listed(us)
    ensures WithoutUser(us, u) == us
  {
    if us != [] { Unlisted(us[1..], u); }
  }

  // ---- the seat ----

  /** q is r with the host's seat given to this connection and ID, or to nobody. */
  predicate SeatGiven(r: Room, q: Room, c: Option<ConnId>, id: Option<UserId>)
  {
    && q == r.(host := c, hostId := id, hostAway := None, users := q.users, play := r.play.(lastHostSeq := 0))
    && Reflagged(r.users, q.users, id)
  }

  lemma AssignGives(r: Room, conns: Conns, c: Option<ConnId>)
    requires c.Some? ==> c.value in conns
    ensures SeatGiven(r, AssignHost(r, conns, c), c, if c.Some? then Some(conns[c.value].id) else None)
  {
    hide FlagHost;
    FlagMeans(r.users, if c.Some? then Some(conns[c.value].id) else None);
  }

  /** c sits in the host's seat of its room. */
  predicate Presides(s: State, c: ConnId)
    requires InRoom(s, c)
  {
    RoomOf(s, c).host == Some(c) && RoomOf(s, c).hostAway.None?
  }

  lemma ClientLink(s: State, ref: Ref, u: UserId)
    requires Inv(s) && ref in s.rooms && u in s.rooms[ref].clients
    ensures var c := s.rooms[ref].clients[u]; c in s.conns && s.conns[c].id == u && s.conns[c].room == Some(ref)
  {
    hide Inv, BackLinked, Applicants, OneHome, Known;
    InvLinking(s);
  }

  /** A transfer moves the seat to another connected member who may host, ends the
      owner's claim to it, and touches nothing else. */
  predicate TransferDone(s: State, c: ConnId, u: UserId, t: State)
  {
    && InRoom(s, c)
    && var ref := s.conns[c].room.value;
       var r := s.rooms[ref];
       if Presides(s, c) && u != s.conns[c].id && u in r.clients && r.clients[u] in s.conns
          && s.conns[r.clients[u]].allow && !s.conns[r.clients[u]].closed
       then ref in t.rooms && t == s.(rooms := s.rooms[ref := t.rooms[ref]])
            && SeatGiven(r.(owner := None), t.rooms[ref], Some(r.clients[u]), Some(u))
       else t == s
  }

  lemma TransferMoves(s: State, c: ConnId, u: UserId)
    requires Inv(s) && Enabled(s, Transfer(c, u))
    ensures TransferDone(s, c, u, Next(s, Transfer(c, u)))
  {
    hide Inv, AssignHost, SeatGiven;
    var r := RoomOf(s, c);
    if u in r.clients {
      ClientLink(s, s.conns[c].room.value, u);
      AssignGives(r.(owner := None), s.conns, Some(r.clients[u]));
    }
  }

  /** Handing the seat over and back again changes nothing but that nobody waits for
      it any more and the numbering of the host's requests starts over. */
  lemma TransferUndone(s: State, c: ConnId, u: UserId, t: State, f: State)
    requires Inv(s) && Enabled(s, Transfer(c, u)) && TransferOk(s, c, u) && !s.conns[c].closed
    requires t == Next(s, Transfer(c, u)) && Enabled(t, Transfer(RoomOf(s, c).clients[u], s.conns[c].id))
    requires f == Next(t, Transfer(RoomOf(s, c).clients[u], s.conns[c].id))
    ensures var ref := s.conns[c].room.value; var r := s.rooms[ref];
            f == s.(rooms := s.rooms[ref := r.(owner := None, play := r.play.(lastHostSeq := 0))])
  {
    hide Inv, Next, Reflagged, Roster, RoomInv, Keyed;
    var ref, id := s.conns[c].room.value, s.conns[c].id;
    var r := s.rooms[ref];
    TransferMoves(s, c, u);
    StepKeeps(s, Transfer(c, u));
    ClientLink(s, ref, u);
    TransferMoves(t, r.clients[u], id);
    InvRoomOf(s, c);
    ActiveAlways(s, c);
    HostPointer(r, s.conns, c, id);
    SeatedMayHost(s, c);
    RoomRoster(r, s.conns);
    ReflaggedBack(r, t.rooms[ref].users, f.rooms[ref].users, Some(u));
  }

  lemma SeatedMayHost(s: State, c: ConnId)
    requires Inv(s) && Hosting(s, c)
    ensures s.conns[c].allow
  {
    hide RegInv, RoomsInv, LinkInv, ClosingInv, TokensOk;
    SeatedHost(s, c);
  }

  lemma ReflaggedBack(r: Room, vs: seq<UserInfo>, ws: seq<UserInfo>, host: Option<UserId>)
    requires Roster(r) && Reflagged(r.users, vs, host) && Reflagged(vs, ws, r.hostId)
    ensures ws == r.users
  {
    hide WellListed, Listed, Reflagged;
    WellListedMeans(r.users, r.clients.Keys, r.hostId);
    FlagsRestored(r.users, vs, ws, host, r.hostId);
  }

  lemma FlagsRestored(us: seq<UserInfo>, vs: seq<UserInfo>, ws: seq<UserInfo>, other: Option<UserId>,
                      host: Option<UserId>)
    requires Reflagged(us, vs, other) && Reflagged(vs, ws, host)
    requires forall i :: 0 <= i < |us| ==> (us[i].isHost <==> host == Some(us[i].id))
    ensures ws == us
  {
  }

  /** When the host was gone for half a minute the fastest eligible member gets the
      seat; the host, or an owner already waiting, keeps a claim to it. */
  ghost predicate FailoverDone(s: State, ref: Ref, now: Time, d: Option<ConnId>, t: State)
  {
    && ref in s.rooms
    && var r := s.rooms[ref];
       if r.hostAway.Some? && r.hostId.Some? && now - r.hostAway.value >= 30_000_000_000 && d.Some?
       then ref in t.rooms && t == s.(rooms := s.rooms[ref := t.rooms[ref]]) && exists u ::
              && Fastest(r.clients, s.conns, u) && r.clients[u] == d.value
              && SeatGiven(r.(owner := if r.owner.Some? then r.owner else r.hostId), t.rooms[ref], d, Some(u))
       else t == s && (d.None? ==> NobodyMayHost(r.clients, s.conns))
  }

  lemma FailoverMoves(s: State, ref: Ref, now: Time, d: Option<ConnId>)
    requires Inv(s) && Enabled(s, Failover(ref, now, d))
    ensures FailoverDone(s, ref, now, d, Next(s, Failover(ref, now, d)))
  {
    hide Inv, AssignHost, SeatGiven, Deputy, Fastest;
    var r := s.rooms[ref];
    DeputyIsFastest(r.clients, s.conns, d);
    if d.Some? {
      var u := Successor(s, ref, r.clients, d.value);
      AssignGives(r.(owner := if r.owner.None? then r.hostId else r.owner), s.conns, d);
    }
  }

  /** The deputy is one of the clients, filed under its own ID. */
  lemma Successor(s: State, ref: Ref, clients: map<UserId, ConnId>, d: ConnId) returns (u: UserId)
    requires Inv(s) && ref in s.rooms && Deputy(clients, s.conns, Some(d))
    requires forall v :: v in clients ==> v in s.rooms[ref].clients && clients[v] == s.rooms[ref].clients[v]
    ensures Fastest(clients, s.conns, u) && u in clients && clients[u] == d && d in s.conns && s.conns[d].id == u
  {
    hide Inv, Deputy;
    DeputyIsFastest(clients, s.conns, Some(d));
    u :| Fastest(clients, s.conns, u) && clients[u] == d;
    ClientLink(s, ref, u);
  }

  // ---- coming in ----

  /** A new connection has a fresh ID and nothing else. */
  lemma ConnectionStartsBlank(s: State, c: ConnId, id: UserId, allow: bool)
    requires Enabled(s, Connect(c, id, allow))
    ensures var t := Next(s, Connect(c, id, allow));
            && c in t.conns && t == s.(conns := s.conns[c := t.conns[c]], usedIds := s.usedIds + {id})
            && var k := t.conns[c];
               && k.id == id && k.name == [] && k.token.None? && k.room.None? && k.pendingRoom.None?
               && !k.closed && k.allow == allow && k.rtt == 0 && !k.detached
  {
  }

  /** Measuring and closing change the one flag of the one connection. */
  lemma ConnectionChanges(s: State, c: ConnId, rtt: int)
    requires c in s.conns
    ensures Next(s, Measure(c, rtt)) == s.(conns := s.conns[c := s.conns[c].(rtt := rtt)])
    ensures Next(s, Close(c)) == s.(conns := s.conns[c := s.conns[c].(closed := true)])
  {
  }

  /** Creating opens a room in which the creator is alone and hosts, under a code not
      in use, if the creator may host, is in no room and waits for none, has a name,
      and there are not too many rooms. */
  predicate CreateDone(s: State, c: ConnId, raw: Str, code: Code, ref: Ref, token: Token, now: int, t: State)
  {
    && c in s.conns
    && var k := s.conns[c];
       var name := Sanitize(raw, 50);
       if k.allow && k.room.None? && k.pendingRoom.None? && name != [] && code !in s.registry && |s.registry| < 10_000
       then
         && ref in t.rooms
         && t == s.(conns := s.conns[c := k.(name := name, token := Some(token), room := Some(ref))],
                    rooms := s.rooms[ref := t.rooms[ref]], registry := s.registry[code := ref],
                    usedTokens := s.usedTokens + {token}, clock := now)
         && var r := t.rooms[ref];
            && r.code == code && r.host == Some(c) && r.hostId == Some(k.id) && r.hostAway.None? && r.owner.None?
            && r.clients == map[k.id := c] && r.pending == map[] && r.away == map[] && r.suggestions == map[]
            && r.notices == map[] && r.users == [UserInfo(k.id, name, true, true)]
            && r.play == Play(None, false, 0, now, 1.0, [], 0, [], 0, 0)
       else t == s
  }

  lemma CreateOpens(s: State, c: ConnId, raw: Str, code: Code, ref: Ref, token: Token, now: int)
    requires Enabled(s, Create(c, raw, code, ref, token, now))
    ensures CreateDone(s, c, raw, code, ref, token, now, Next(s, Create(c, raw, code, ref, token, now)))
  {
    hide Sanitize;
  }

  /** An application is filed if the room has space and a host, present or away; a
      request that names a room also gives the connection its name. */
  predicate JoinDone(s: State, c: ConnId, raw: Str, code: Code, t: State)
  {
    && c in s.conns
    && var k := s.conns[c];
       var name := Sanitize(raw, 50);
       if k.room.Some? || k.pendingRoom.Some? || name == [] || code !in s.registry || s.registry[code] !in s.rooms
       then t == s
       else
         var ref := s.registry[code];
         var r := s.rooms[ref];
         if k.id in r.clients || k.id in r.pending || |r.clients| + |r.away| >= 100 || |r.pending| >= 100
            || r.hostId.None?
         then t == s.(conns := s.conns[c := k.(name := name)])
         else t == s.(conns := s.conns[c := k.(name := name, pendingRoom := Some(ref))],
                      rooms := s.rooms[ref := r.(pending := r.pending[k.id := c])])
  }

  lemma JoinApplies(s: State, c: ConnId, raw: Str, code: Code)
    requires Enabled(s, Join(c, raw, code))
    ensures JoinDone(s, c, raw, code, Next(s, Join(c, raw, code)))
  {
    hide Sanitize;
  }

  lemma ApplicantLink(s: State, ref: Ref, u: UserId)
    requires Inv(s) && ref in s.rooms && u in s.rooms[ref].pending
    ensures var c := s.rooms[ref].pending[u]; c in s.conns && s.conns[c].id == u && s.conns[c].pendingRoom == Some(ref)
  {
    hide Inv, BackLinked, Linked, OneHome, Known;
    InvLinking(s);
  }

  /** c waits for no room, and no room has it on its list. */
  ghost predicate Unapplied(t: State, c: ConnId)
  {
    && c in t.conns && t.conns[c].pendingRoom.None?
    && forall ref, u :: ref in t.rooms && u in t.rooms[ref].pending ==> t.rooms[ref].pending[u] != c
  }

  /** The application of u to ref, by connection j, is gone; all else is as it was. */
  ghost predicate TurnedAway(s: State, t: State, ref: Ref, u: UserId, j: ConnId)
  {
    && j in s.conns && ref in s.rooms && Unapplied(t, j)
    && t == s.(conns := s.conns[j := s.conns[j].(pendingRoom := None)],
               rooms := s.rooms[ref := s.rooms[ref].(pending := s.rooms[ref].pending - {u})])
  }

  lemma WithdrawnIsTurnedAway(s: State, ref: Ref, u: UserId)
    requires Inv(s) && ref in s.rooms && u in s.rooms[ref].pending
    ensures TurnedAway(s, Withdrawn(s, s.rooms[ref].pending[u], ref, u), ref, u, s.rooms[ref].pending[u])
  {
    hide Inv;
    var j := s.rooms[ref].pending[u];
    var t := Withdrawn(s, j, ref, u);
    ApplicantLink(s, ref, u);
    forall x, v | x in t.rooms && v in t.rooms[x].pending ensures t.rooms[x].pending[v] != j {
      ApplicantLink(s, x, v);
    }
  }

  /** A rejected applicant waits nowhere any more. */
  ghost predicate RejectDone(s: State, c: ConnId, key: UserId, t: State)
  {
    && InRoom(s, c)
    && var ref := s.conns[c].room.value;
       var r := s.rooms[ref];
       if Presides(s, c) && key in r.pending then TurnedAway(s, t, ref, key, r.pending[key]) else t == s
  }

  lemma RejectTurnsAway(s: State, c: ConnId, key: UserId)
    requires Inv(s) && Enabled(s, RejectJoin(c, key))
    ensures RejectDone(s, c, key, Next(s, RejectJoin(c, key)))
  {
    hide Inv, TurnedAway, Withdrawn;
    var ref := s.conns[c].room.value;
    if key in s.rooms[ref].pending {
      ApplicantLink(s, ref, key);
      WithdrawnIsTurnedAway(s, ref, key);
    }
  }

  /** An approved applicant becomes a member under their own ID and name with a fresh
      token, listed last; a full room keeps them waiting, and a closed connection or
      one that found another room is turned away. */
  ghost predicate ApproveDone(s: State, c: ConnId, key: UserId, token: Token, t: State)
  {
    && InRoom(s, c)
    && var ref := s.conns[c].room.value;
       var r := s.rooms[ref];
       if !(Presides(s, c) && key in r.pending && r.pending[key] in s.conns) then t == s
       else
         var j := r.pending[key];
         var k := s.conns[j];
         if k.closed || (k.room.Some? && |r.clients| + |r.away| < 100) then TurnedAway(s, t, ref, key, j)
         else if |r.clients| + |r.away| >= 100 then t == s
         else t == s.(conns := s.conns[j := k.(room := Some(ref), token := Some(token), pendingRoom := None)],
                      rooms := s.rooms[ref := r.(pending := r.pending - {key}, clients := r.clients[key := j],
                                                 users := r.users + [UserInfo(key, k.name, false, true)])],
                      usedTokens := s.usedTokens + {token})
  }

  lemma ApproveAdmits(s: State, c: ConnId, key: UserId, token: Token)
    requires Inv(s) && Enabled(s, Approve(c, key, token))
    ensures ApproveDone(s, c, key, token, Next(s, Approve(c, key, token)))
  {
    hide Inv, TurnedAway, Withdrawn;
    var ref := s.conns[c].room.value;
    if key in s.rooms[ref].pending {
      ApplicantLink(s, ref, key);
      WithdrawnIsTurnedAway(s, ref, key);
    }
  }

  /** c's application, if any, is gone from wherever it was filed. */
  ghost predicate WithdrawDone(s: State, c: ConnId, k: Conn, t: State)
  {
    && c in s.conns
    && Unapplied(t, c)
    && t == s.(conns := s.conns[c := k], rooms := t.rooms, usedIds := s.usedIds + {k.id})
    && t.rooms.Keys == s.rooms.Keys
    && forall ref :: ref in s.rooms ==>
         t.rooms[ref] == s.rooms[ref].(pending := Dropping(s.rooms[ref].pending, s.conns[c].id, c))
  }

  /** The applications without u's, if it is c's. */
  function Dropping(pending: map<UserId, ConnId>, u: UserId, c: ConnId): map<UserId, ConnId>
  {
    map v | v in pending && !(v == u && pending[v] == c) :: pending[v]
  }

  /** c's only application is where c thinks it is. */
  lemma OnlyApplication(s: State, c: ConnId, ref: Ref, u: UserId)
    requires Inv(s) && c in s.conns && ref in s.rooms && u in s.rooms[ref].pending && s.rooms[ref].pending[u] == c
    ensures u == s.conns[c].id && s.conns[c].pendingRoom == Some(ref)
  {
    hide Inv;
    ApplicantLink(s, ref, u);
  }

  lemma RemovedShape(s: State, c: ConnId)
    requires c in s.conns
    ensures var t := DoRemovePending(s, c);
            && t == s.(conns := s.conns[c := s.conns[c].(pendingRoom := None)], rooms := t.rooms)
            && t.rooms.Keys == s.rooms.Keys
  {
    hide ClearPending;
    var k := s.conns[c];
    if k.pendingRoom.Some? {
      ClearedPending(s.conns, c, k.pendingRoom.value);
    } else {
      Reput(s.conns, c, k);
    }
  }

  lemma RemovedFrom(s: State, c: ConnId, ref: Ref)
    requires Inv(s) && c in s.conns && ref in s.rooms
    ensures var t := DoRemovePending(s, c);
            ref in t.rooms && t.rooms[ref] == s.rooms[ref].(pending := Dropping(s.rooms[ref].pending, s.conns[c].id, c))
  {
    hide Inv, ClearPending;
    var p, u := s.rooms[ref].pending, s.conns[c].id;
    if u in p && p[u] == c {
      OnlyApplication(s, c, ref, u);
      assert Dropping(p, u, c) == p - {u};
    } else {
      assert Dropping(p, u, c) == p;
    }
  }

  lemma RemovePendingIsDone(s: State, c: ConnId)
    requires Inv(s) && c in s.conns
    ensures WithdrawDone(s, c, s.conns[c].(pendingRoom := None), DoRemovePending(s, c))
  {
    hide Inv, DoRemovePending;
    var t := DoRemovePending(s, c);
    KnownId(s, c);
    RemovedShape(s, c);
    forall ref | ref in s.rooms
      ensures ref in t.rooms && t.rooms[ref] == s.rooms[ref].(pending := Dropping(s.rooms[ref].pending, s.conns[c].id, c))
    {
      RemovedFrom(s, c, ref);
    }
    forall ref, u | ref in t.rooms && u in t.rooms[ref].pending ensures t.rooms[ref].pending[u] != c {
      if s.rooms[ref].pending[u] == c { OnlyApplication(s, c, ref, u); }
    }
  }

  lemma KnownId(s: State, c: ConnId)
    requires Inv(s) && c in s.conns
    ensures s.usedIds + {s.conns[c].id} == s.usedIds
  {
    hide Inv, BackLinked, Linked, OneHome, Applicants;
    InvLinking(s);
  }

  /** Withdrawing an application leaves c on no list and nothing else changed. */
  lemma RemovePendingWithdraws(s: State, c: ConnId)
    requires Inv(s) && Enabled(s, RemovePending(c))
    ensures WithdrawDone(s, c, s.conns[c].(pendingRoom := None), Next(s, RemovePending(c)))
  {
    hide Inv, WithdrawDone, DoRemovePending;
    RemovePendingIsDone(s, c);
  }

  /** Leaving outside a room withdraws the application and renews the ID. */
  lemma CancelRenews(s: State, c: ConnId, id: UserId)
    requires Inv(s) && Enabled(s, Cancel(c, id))
    ensures s.conns[c].room.Some? ==> Next(s, Cancel(c, id)) == s
    ensures s.conns[c].room.None? ==>
              WithdrawDone(s, c, s.conns[c].(pendingRoom := None, id := id), Next(s, Cancel(c, id)))
  {
    hide Inv, DoRemovePending, Unapplied, Dropping;
    RemovePendingIsDone(s, c);
    var u := DoRemovePending(s, c);
    KnownId(s, c);
    if s.conns[c].room.None? {
      var t := u.(conns := u.conns[c := u.conns[c].(id := id)], usedIds := u.usedIds + {id});
      assert t.conns == s.conns[c := s.conns[c].(pendingRoom := None, id := id)];
      RenamedUnapplied(u, t, c);
    }
  }

  lemma RenamedUnapplied(u: State, t: State, c: ConnId)
    requires Unapplied(u, c) && t.rooms == u.rooms && c in t.conns && t.conns[c].pendingRoom.None?
    ensures Unapplied(t, c)
  {
  }

  // ---- going ----

  /** The suggestions without u's. */
  ghost predicate Purged(xs: map<SuggestionId, Suggestion>, ys: map<SuggestionId, Suggestion>, u: UserId)
  {
    && (forall x :: x in ys <==> x in xs && xs[x].author != u)
    && (forall x :: x in ys ==> ys[x] == xs[x])
  }

  /** q is r without the member u and everything that was u's; roles apart from a
      waiting owner's are as they were. */
  ghost predicate Removed(r: Room, q: Room, u: UserId)
  {
    && q == r.(clients := r.clients - {u}, away := r.away - {u}, notices := r.notices - {u},
               suggestions := q.suggestions, users := q.users, owner := if r.owner == Some(u) then None else r.owner)
    && Purged(r.suggestions, q.suggestions, u) && Struck(r.users, q.users, u)
  }

  lemma DroppedIsRemoved(r: Room, u: UserId)
    requires Roster(r) && (u in r.clients || u in r.away)
    ensures Removed(r, Dropped(r, u), u)
  {
    hide WithoutUser, WellListed, Listed, Struck;
    StrikeMeans(r.users, r.clients.Keys, r.hostId, u);
  }

  /** u is gone from ref: the connection is released, or the seat and its token
      are taken away. */
  ghost predicate PutOut(s: State, t: State, ref: Ref, u: UserId)
  {
    && ref in s.rooms && ref in t.rooms && Removed(s.rooms[ref], t.rooms[ref], u)
    && var r := s.rooms[ref];
       && t == s.(conns := t.conns, rooms := s.rooms[ref := t.rooms[ref]], sessions := t.sessions, revoked := t.revoked)
       && (u in r.clients ==>
             && r.clients[u] in s.conns && t.conns == s.conns[r.clients[u] := s.conns[r.clients[u]].(room := None)]
             && t.sessions == s.sessions && t.revoked == s.revoked)
       && (u in r.away ==>
             && t.conns == s.conns
             && Deprived(s, t, set v | v in s.sessions && s.sessions[v].session.code == r.code
                                       && s.sessions[v].session.user == u))
  }

  /** The host may put out anybody but themselves. */
  ghost predicate KickDone(s: State, c: ConnId, u: UserId, t: State)
  {
    && InRoom(s, c)
    && if Presides(s, c) && u != s.conns[c].id && (u in RoomOf(s, c).clients || u in RoomOf(s, c).away)
       then PutOut(s, t, s.conns[c].room.value, u)
       else t == s
  }

  /** Exactly these tokens are gone, and their sessions remembered as revoked. */
  ghost predicate Deprived(s: State, t: State, ts: set<Token>)
  {
    && (forall v :: v in t.sessions <==> v in s.sessions && v !in ts)
    && (forall v :: v in t.sessions ==> t.sessions[v] == s.sessions[v])
    && (forall x :: x in t.revoked <==>
          x in s.revoked || exists v :: v in ts && v in s.sessions && s.sessions[v].ref == x)
  }

  lemma RevokeDeprives(s: State, t: State, ts: set<Token>)
    requires t.sessions == s.sessions - ts && t.revoked == s.revoked + Refs(s.sessions, ts)
    ensures Deprived(s, t, ts)
  {
  }

  lemma KickRoom(r: Room, u: UserId)
    requires Roster(r) && (u in r.clients || u in r.away)
    ensures Removed(r, Kicked(r, u), u) && !(u in r.clients && u in r.away)
  {
    hide Roster, Removed, Kicked, Dropped;
    KickedIsDropped(r, u);
    DroppedIsRemoved(r, u);
    Apart(r, u);
  }

  lemma ActiveIsPutOut(s: State, ref: Ref, u: UserId)
    requires Inv(s) && ref in s.rooms && u in s.rooms[ref].clients && Roster(s.rooms[ref])
    ensures PutOut(s, KickActive(s, ref, u), ref, u)
  {
    hide Inv, Removed, Kicked, Roster, Deprived;
    KickRoom(s.rooms[ref], u);
    ClientLink(s, ref, u);
  }

  lemma AwayIsPutOut(s: State, ref: Ref, u: UserId)
    requires ref in s.rooms && u in s.rooms[ref].away && Roster(s.rooms[ref])
    ensures PutOut(s, KickAway(s, ref, u), ref, u)
  {
    hide Removed, Kicked, Roster, Deprived, Refs, TokensOf;
    KickRoom(s.rooms[ref], u);
    MemberTokens(s, s.rooms[ref].code, u);
    RevokeDeprives(s, KickAway(s, ref, u), TokensOf(s, s.rooms[ref].code, u));
  }

  lemma KickRemoves(s: State, c: ConnId, u: UserId)
    requires Inv(s) && Enabled(s, Kick(c, u))
    ensures KickDone(s, c, u, Next(s, Kick(c, u)))
  {
    hide Inv, PutOut, KickActive, KickAway, Roster, RoomInv;
    var ref := s.conns[c].room.value;
    var r := s.rooms[ref];
    InvRoomOf(s, c);
    RoomRoster(r, s.conns);
    if u in r.clients { ActiveIsPutOut(s, ref, u); } else if u in r.away { AwayIsPutOut(s, ref, u); }
  }

  lemma MemberTokens(s: State, code: Code, u: UserId)
    ensures TokensOf(s, code, u) ==
            set v | v in s.sessions && s.sessions[v].session.code == code && s.sessions[v].session.user == u
  {
  }

  lemma RoomRoster(r: Room, conns: Conns)
    requires RoomInv(r, conns)
    ensures Roster(r)
  {
  }

  /** p's seat passes to the fastest of these clients, or to nobody if none may host. */
  ghost predicate Succession(p: Room, q: Room, clients: map<UserId, ConnId>, conns: Conns, d: Option<ConnId>)
  {
    match d
    case None => NobodyMayHost(clients, conns) && SeatGiven(p, q, None, None)
    case Some(c) => exists u :: Fastest(clients, conns, u) && clients[u] == c && SeatGiven(p, q, d, Some(u))
  }

  lemma AssignSucceeds(s: State, ref: Ref, p: Room, clients: map<UserId, ConnId>, d: Option<ConnId>)
    requires Inv(s) && ref in s.rooms && Picked(s, clients, d)
    requires forall v :: v in clients ==> v in s.rooms[ref].clients && clients[v] == s.rooms[ref].clients[v]
    ensures Succession(p, AssignHost(p, s.conns, d), clients, s.conns, d)
  {
    hide Inv, AssignHost, SeatGiven, Deputy, Fastest, NobodyMayHost;
    DeputyIsFastest(clients, s.conns, d);
    AssignGives(p, s.conns, d);
    if d.Some? { var u := Successor(s, ref, clients, d.value); }
  }

  /** Nobody left can ever host the room. */
  predicate Doomed(q: Room) { q.hostId.None? && q.clients != map[] && q.away == map[] }

  /** u is gone from r; if u was the host and anybody remains, the seat passes on. */
  ghost predicate Departed(r: Room, q: Room, u: UserId, conns: Conns, d: Option<ConnId>)
  {
    var clients := r.clients - {u};
    if r.hostId == Some(u) && (clients != map[] || r.away - {u} != map[])
    then exists p :: Removed(r, p, u) && Succession(p, q, clients, conns, d)
    else Removed(r, q, u)
  }

  /** A member who leaves is gone from the room and the connection is free; a room
      left with nobody who can host is marked for closing. */
  ghost predicate LeaveDone(s: State, c: ConnId, d: Option<ConnId>, t: State)
  {
    && InRoom(s, c)
    && var ref, k := s.conns[c].room.value, s.conns[c];
       var r := s.rooms[ref];
       && ref in t.rooms
       && t == s.(conns := s.conns[c := k.(room := None)], rooms := s.rooms[ref := t.rooms[ref]],
                  closing := if Doomed(t.rooms[ref]) then s.closing + {ref} else s.closing)
       && Departed(r.(pending := r.pending - {k.id}), t.rooms[ref], k.id, s.conns, d)
  }

  lemma LeftDeparts(s: State, c: ConnId, d: Option<ConnId>)
    requires Inv(s) && InRoom(s, c) && Active(s, c) && Picked(s, RoomOf(s, c).clients - {s.conns[c].id}, d)
    ensures var r, k := RoomOf(s, c), s.conns[c];
            Departed(r.(pending := r.pending - {k.id}), Left(r, s.conns, c, k.id, d), k.id, s.conns, d)
  {
    hide Inv, Removed, Succession, AssignHost, Dropped, Roster, RoomInv, Deputy, Keyed;
    var ref, u := s.conns[c].room.value, s.conns[c].id;
    var r := s.rooms[ref];
    var r' := r.(pending := r.pending - {u});
    InvRoomOf(s, c);
    HostPointer(r, s.conns, c, u);
    RoomRoster(r, s.conns);
    RosterElsewhere(r, r');
    DroppedIsRemoved(r', u);
    LeftDrops(r, s.conns, c, u, d);
    AssignSucceeds(s, ref, Dropped(r', u), r.clients - {u}, d);
    DroppedFields(r', u);
  }

  lemma RosterElsewhere(r: Room, q: Room)
    requires Roster(r) && q == r.(pending := q.pending)
    ensures Roster(q)
  {
    hide RosterOf, SeatsOf;
  }

  lemma LeftDrops(r: Room, conns: Conns, c: ConnId, u: UserId, d: Option<ConnId>)
    requires d.Some? ==> d.value in conns
    ensures var p := Dropped(r.(pending := r.pending - {u}), u);
            Left(r, conns, c, u, d) == if Deserted(p) || r.host != Some(c) then p else AssignHost(p, conns, d)
  {
    hide WithoutUser, Unsuggest, FlagHost;
  }

  lemma LeaveShape(s: State, c: ConnId, d: Option<ConnId>)
    requires InRoom(s, c) && Active(s, c) && (d.Some? ==> d.value in s.conns)
    requires s.conns[c].token.Some? && s.conns[c].token.value !in s.sessions
    ensures var ref := s.conns[c].room.value; var q := Left(s.rooms[ref], s.conns, c, s.conns[c].id, d);
            DoLeave(s, c, d) == s.(conns := s.conns[c := s.conns[c].(room := None)], rooms := s.rooms[ref := q],
                                   closing := if Doomed(q) then s.closing + {ref} else s.closing)
  {
    hide Left;
    NothingToDrop(s.sessions, s.conns[c].token.value);
    assert Refs(s.sessions, {s.conns[c].token.value}) == {};
  }

  lemma LeaveIsDone(s: State, c: ConnId, d: Option<ConnId>)
    requires Inv(s) && InRoom(s, c) && Picked(s, RoomOf(s, c).clients - {s.conns[c].id}, d)
    ensures LeaveDone(s, c, d, DoLeave(s, c, d))
  {
    hide Inv, Departed, Left, Deputy, DoLeave, Doomed;
    TokenIsUnstored(s, c);
    LeaveShape(s, c, d);
    LeftDeparts(s, c, d);
  }

  lemma LeaveDeparts(s: State, c: ConnId, d: Option<ConnId>)
    requires Inv(s) && Enabled(s, Leave(c, d))
    ensures LeaveDone(s, c, d, Next(s, Leave(c, d)))
  {
    hide Inv, Deputy, LeaveDone, DoLeave;
    LeaveIsDone(s, c, d);
  }

  /** A seat whose time is up goes with its member; the next in line takes over. */
  ghost predicate ExpireDone(s: State, x: Session, d: Option<ConnId>, t: State)
  {
    && x.code in s.registry && s.registry[x.code] in s.rooms
    && var ref := s.registry[x.code];
       var r := s.rooms[ref];
       if x.user !in r.away then t == s.(expiring := s.expiring - {x})
       else
         && ref in t.rooms
         && t == s.(rooms := s.rooms[ref := t.rooms[ref]], expiring := s.expiring - {x},
                    closing := if Doomed(t.rooms[ref]) then s.closing + {ref} else s.closing)
         && if r.hostId == Some(x.user)
            then exists p :: Removed(r, p, x.user) && Succession(p, t.rooms[ref], r.clients, s.conns, d)
            else Removed(r, t.rooms[ref], x.user)
  }

  lemma InvRoster(s: State, ref: Ref)
    requires Inv(s) && Registered(s, ref)
    ensures Roster(s.rooms[ref]) && MailInv(s.rooms[ref])
  {
    hide RegInv, LinkInv, ClosingInv, TokensOk, Roster, HostInv, MailInv;
    assert RoomInv(s.rooms[ref], s.conns);
  }

  lemma ExpireUnseats(s: State, x: Session, d: Option<ConnId>)
    requires Inv(s) && Enabled(s, Expire(x, d))
    ensures ExpireDone(s, x, d, Next(s, Expire(x, d)))
  {
    hide Inv, Removed, Succession, Expired, AssignHost, Dropped, Roster, MailInv, Deputy;
    var ref := s.registry[x.code];
    var r := s.rooms[ref];
    JoinTarget(s, x.code);
    if x.user in r.away {
      InvRoster(s, ref);
      Apart(r, x.user);
      DroppedIsRemoved(r, x.user);
      ExpiredIsDropped(r, s.conns, x.user, d);
      AssignSucceeds(s, ref, Dropped(r, x.user), r.clients, d);
    }
  }

  /** Whoever drops out leaves a seat behind in their name, with the token they
      carry; the host's seat stays the host's, and the time is noted. */
  predicate DetachDone(s: State, c: ConnId, now: Time, t: State)
  {
    && InRoom(s, c)
    && var ref, k := s.conns[c].room.value, s.conns[c];
       var r := s.rooms[ref];
       var hosting := r.hostId == Some(k.id);
       var seat := Session(k.id, k.name, r.code, hosting, now);
       && ref in t.rooms && k.token.Some?
       && t == s.(conns := s.conns[c := k.(room := None, detached := true)], rooms := s.rooms[ref := t.rooms[ref]],
                  sessions := s.sessions[k.token.value := Entry(seat, s.nextSession, false)],
                  usedTokens := s.usedTokens + {k.token.value}, nextSession := s.nextSession + 1)
       && var q := t.rooms[ref];
          && q == r.(clients := r.clients - {k.id}, away := r.away[k.id := seat], users := q.users,
                     host := if hosting then None else r.host, hostAway := if hosting then Some(now) else r.hostAway)
          && Remarked(r.users, q.users, k.id, false)
  }

  lemma DetachShape(s: State, c: ConnId, now: Time, spare: Token)
    requires InRoom(s, c) && Active(s, c) && s.conns[c].token.Some?
    ensures DoDetach(s, c, now, spare) == Detached(s, c, s.conns[c].room.value, s.conns[c].token.value, now)
  {
    hide Detached;
  }

  lemma DetachIsDone(s: State, c: ConnId, now: Time)
    requires InRoom(s, c) && s.conns[c].token.Some? && Roster(RoomOf(s, c))
    requires RoomOf(s, c).host == Some(c) <==> RoomOf(s, c).hostId == Some(s.conns[c].id)
    ensures DetachDone(s, c, now, Detached(s, c, s.conns[c].room.value, s.conns[c].token.value, now))
  {
    hide MarkUser, Remarked, Roster;
    var r, k := RoomOf(s, c), s.conns[c];
    RosterMarks(r, k.id, false);
    assert k.(token := Some(k.token.value), room := None, detached := true) == k.(room := None, detached := true);
  }

  lemma DetachReserves(s: State, c: ConnId, now: Time, spare: Token)
    requires Inv(s) && Enabled(s, Detach(c, now, spare))
    ensures DetachDone(s, c, now, Next(s, Detach(c, now, spare)))
  {
    hide Inv, Roster, RoomInv, Keyed, DetachDone, DoDetach, Detached;
    ActiveAlways(s, c);
    InvRoomOf(s, c);
    HostPointer(RoomOf(s, c), s.conns, c, s.conns[c].id);
    RoomRoster(RoomOf(s, c), s.conns);
    DetachShape(s, c, now, spare);
    DetachIsDone(s, c, now);
  }

  lemma RosterMarks(r: Room, u: UserId, on: bool)
    requires Roster(r)
    ensures Remarked(r.users, MarkUser(r.users, u, on), u, on)
  {
    MarkMeans(r.users, r.clients.Keys, r.hostId, u, on);
  }

  // ---- coming back ----

  /** A claim is granted if the token is stored and free, the seat not too old, and
      a host's seat asked for by somebody who may host. */
  predicate ClaimDone(s: State, c: ConnId, v: Token, now: Time, t: State)
  {
    && c in s.conns
    && if s.conns[c].room.None? && s.conns[c].pendingRoom.None? && v in s.sessions && !s.sessions[v].claimed
          && now - s.sessions[v].session.at <= 900_000_000_000 && (s.sessions[v].session.isHost ==> s.conns[c].allow)
       then t == s.(sessions := s.sessions[v := s.sessions[v].(claimed := true)],
                    attempts := s.attempts[c := Attempt(v, s.sessions[v].session, s.sessions[v].ref, Holding)])
       else t == s
  }

  lemma ClaimHolds(s: State, c: ConnId, v: Token, now: Time)
    requires Enabled(s, Claim(c, v, now))
    ensures ClaimDone(s, c, v, now, Next(s, Claim(c, v, now)))
  {
  }

  /** c is back in u's place; whoever hosts, owned the room, or finds it without any
      host, and may host, sits down in the host's seat. */
  ghost predicate Returned(r: Room, q: Room, c: ConnId, u: UserId, may: bool)
  {
    exists us :: Remarked(r.users, us, u, true) &&
      var p := r.(clients := r.clients[u := c], away := r.away - {u}, notices := r.notices - {u}, users := us);
      if may && (r.hostId == Some(u) || r.owner == Some(u) || (r.host.None? && r.hostId.None?))
      then SeatGiven(p.(owner := if r.owner == Some(u) then None else r.owner), q, Some(c), Some(u))
      else q == p
  }

  lemma RejoinReturns(r: Room, conns: Conns, c: ConnId, u: UserId)
    requires Roster(r) && c in conns && conns[c].id == u
    ensures Returned(r, Rejoined(r, conns, c, u), c, u, conns[c].allow)
  {
    hide Roster, MarkUser, FlagHost, Remarked;
    RosterMarks(r, u, true);
    FlagMeans(MarkUser(r.users, u, true), Some(u));
  }

  /** The reconnect succeeds if its token still stands for its session and the seat
      is reserved; it restores ID, name and token and uses the token up. */
  ghost predicate ConsumeDone(s: State, c: ConnId, ref: Ref, t: State)
  {
    && c in s.attempts && ref in s.rooms && c in s.conns
    && var a, r := s.attempts[c], s.rooms[ref];
       var u := a.session.user;
       if a.token in s.sessions && u in r.away && u !in r.clients
       then
         && ref in t.rooms && Returned(r, t.rooms[ref], c, u, s.conns[c].allow)
         && var k := s.conns[c].(id := u, name := r.away[u].name, token := Some(a.token), room := Some(ref));
            t == s.(conns := s.conns[c := k], rooms := s.rooms[ref := t.rooms[ref]],
                    sessions := s.sessions - {a.token}, attempts := s.attempts - {c}, consumed := s.consumed + {a.ref})
       else t == s.(attempts := s.attempts[c := a.(phase := Refused)])
  }

  lemma AttemptFacts(s: State, c: ConnId)
    requires Inv(s) && c in s.attempts
    ensures c in s.conns && s.conns[c].room.None?
    ensures s.attempts[c].token in s.sessions ==> s.sessions[s.attempts[c].token].ref == s.attempts[c].ref
  {
    hide RoomsOk, ClosingInv, TokenInv, HistoryInv, OneHolder, ClaimsHeld;
    assert Attempting(s, c);
  }

  lemma ConsumeRestores(s: State, c: ConnId, ref: Ref)
    requires Inv(s) && Enabled(s, Consume(c, ref))
    ensures c in s.conns && ConsumeDone(s, c, ref, Next(s, Consume(c, ref)))
  {
    hide Inv, Rejoined, Returned, Roster, MailInv, RoomsOk, TokensOk, ClosingInv;
    var a := s.attempts[c];
    AttemptFacts(s, c);
    if Succeeds(s, c, ref) {
      InvParts(s);
      SuccessIsOwn(s, c, ref);
      InvRoster(s, ref);
      RejoinReturns(s.rooms[ref], Consumed(s, c, ref).conns, c, a.session.user);
    }
  }

  /** A reconnect whose room is gone remembers that. */
  lemma LookupTells(s: State, c: ConnId)
    requires Enabled(s, Lookup(c))
    ensures var a := s.attempts[c];
            Next(s, Lookup(c)) ==
              if a.session.code in s.registry then s else s.(attempts := s.attempts[c := a.(phase := NoRoom)])
  {
  }

  /** A reconnect that ends without success gives its token free. */
  predicate ReleaseDone(s: State, c: ConnId, t: State)
  {
    && c in s.attempts
    && var v := s.attempts[c].token;
       t == s.(attempts := s.attempts - {c},
               sessions := if v in s.sessions then s.sessions[v := s.sessions[v].(claimed := false)] else s.sessions)
  }

  lemma ReleaseFreesToken(s: State, c: ConnId)
    requires Inv(s) && Enabled(s, Release(c))
    ensures ReleaseDone(s, c, Next(s, Release(c)))
  {
    hide Inv;
    AttemptFacts(s, c);
  }

  /** Dropping a token takes exactly that token. */
  lemma DropTokenDeprives(s: State, c: ConnId)
    requires Enabled(s, DropToken(c))
    ensures var t := Next(s, DropToken(c));
            t == s.(sessions := t.sessions, revoked := t.revoked) && Deprived(s, t, {s.attempts[c].token})
  {
    hide Deprived, Refs;
    RevokeDeprives(s, Next(s, DropToken(c)), {s.attempts[c].token});
  }

  // ---- timers ----

  /** Cleanup takes exactly the tokens of seats older than the grace period, and
      remembers their sessions for expiry. */
  ghost predicate TakeDone(s: State, now: Time, t: State)
  {
    && t == s.(sessions := t.sessions, revoked := t.revoked, expiring := t.expiring)
    && Deprived(s, t, set v | v in s.sessions && now - s.sessions[v].session.at > 900_000_000_000)
    && forall x :: x in t.expiring <==>
         x in s.expiring || exists v :: v in s.sessions && s.sessions[v].session == x && now - x.at > 900_000_000_000
  }

  lemma TakeSweeps(s: State, now: Time)
    ensures TakeDone(s, now, Next(s, Take(now)))
  {
    hide Refs, Deprived;
    var ts := set v | v in s.sessions && now - s.sessions[v].session.at > 900_000_000_000;
    assert ts == ExpiredTokens(s, now);
    RevokeDeprives(s, Next(s, Take(now)), ts);
  }

  /** The room's clients and applicants are free again; other connections are as
      they were. */
  ghost predicate Freed(s: State, t: State, r: Room)
  {
    && t.conns.Keys == s.conns.Keys
    && forall c :: c in s.conns ==>
         t.conns[c] == s.conns[c].(room := if c in r.clients.Values then None else s.conns[c].room,
                                   pendingRoom := if c in r.pending.Values then None else s.conns[c].pendingRoom)
  }

  lemma ReleaseFrees(s: State, t: State, ref: Ref)
    requires Inv(s) && ref in s.rooms && t.conns == ReleaseAll(s.conns, s.rooms[ref], ref)
    ensures Freed(s, t, s.rooms[ref])
  {
    hide Inv;
    var r := s.rooms[ref];
    forall u | u in r.clients ensures r.clients[u] in s.conns && s.conns[r.clients[u]].room == Some(ref) {
      ClientLink(s, ref, u);
    }
    forall u | u in r.pending ensures r.pending[u] in s.conns && s.conns[r.pending[u]].pendingRoom == Some(ref) {
      ApplicantLink(s, ref, u);
    }
  }

  /** A registered room without members or seats is deleted, its applicants freed. */
  ghost predicate DeleteDone(s: State, ref: Ref, t: State)
  {
    && ref in s.rooms
    && var r := s.rooms[ref];
       if Registered(s, ref) && r.clients == map[] && r.away == map[]
       then Freed(s, t, r) && t == s.(conns := t.conns, rooms := s.rooms[ref := r.(pending := map[])],
                                      registry := s.registry - {r.code})
       else t == s
  }

  lemma DeleteForgets(s: State, ref: Ref)
    requires Inv(s) && Enabled(s, Delete(ref))
    ensures DeleteDone(s, ref, Next(s, Delete(ref)))
  {
    hide Inv, Freed, ReleaseAll;
    if Registered(s, ref) && Deserted(s.rooms[ref]) { ReleaseFrees(s, Next(s, Delete(ref)), ref); }
  }

  /** Closing empties the room, frees everybody in it, revokes its tokens and takes
      its code out of use. */
  ghost predicate CloseDone(s: State, ref: Ref, t: State)
  {
    && ref in s.rooms
    && var r := s.rooms[ref];
       && Freed(s, t, r) && Deprived(s, t, set v | v in s.sessions && s.sessions[v].session.code == r.code)
       && t == s.(conns := t.conns, sessions := t.sessions, revoked := t.revoked,
                  rooms := s.rooms[ref := r.(clients := map[], pending := map[], away := map[], host := None)],
                  registry := s.registry - {r.code}, closing := s.closing - {ref})
  }

  lemma ClosingIsRegistered(s: State, ref: Ref)
    requires Inv(s) && ref in s.closing
    ensures Registered(s, ref)
  {
    hide RoomsOk, TokensOk, Dead;
  }

  lemma CloseClears(s: State, ref: Ref)
    requires Inv(s) && Enabled(s, CloseRoom(ref))
    ensures CloseDone(s, ref, Next(s, CloseRoom(ref)))
  {
    hide Inv, Freed, ReleaseAll, Refs, Deprived;
    var t := Next(s, CloseRoom(ref));
    ClosingIsRegistered(s, ref);
    ReleaseFrees(s, t, ref);
    RevokeDeprives(s, t, set v | v in s.sessions && s.sessions[v].session.code == s.rooms[ref].code);
  }

  /** An expiry that comes too late does nothing. */
  lemma StaleExpiryIsDropped(s: State, x: Session)
    requires Enabled(s, ExpireStale(x))
    ensures Next(s, ExpireStale(x)) == s.(expiring := s.expiring - {x})
  {
  }

  // ---- suggestions and playback ----

  /** c is a member other than the host with room for another suggestion, and has
      not suggested this track yet. */
  predicate MaySuggest(r: Room, c: ConnId, u: UserId, track: Str)
  {
    var mine := set x | x in r.suggestions && r.suggestions[x].author == u;
    && u in r.clients && r.clients[u] == c && r.hostId != Some(u) && |r.suggestions| < 100 && |mine| < 10
    && forall x :: x in mine ==> r.suggestions[x].track.id != track
  }

  lemma SuggestOkMeans(s: State, c: ConnId, track: Track)
    requires c in s.conns && s.conns[c].room.Some? && s.conns[c].room.value in s.rooms
    ensures SuggestOk(s, c, track) <==> MaySuggest(s.rooms[s.conns[c].room.value], c, s.conns[c].id, track.id)
  {
    var r := s.rooms[s.conns[c].room.value];
    assert By(r.suggestions, s.conns[c].id) == set x | x in r.suggestions && r.suggestions[x].author == s.conns[c].id;
  }

  /** A usable track is filed, cleaned, under its author's own name. */
  predicate SuggestDone(s: State, c: ConnId, id: SuggestionId, raw: Track, t: State)
  {
    && c in s.conns
    && var k := s.conns[c];
       if k.room.Some? && k.room.value in s.rooms && ValidTrackId(raw.id)
          && MaySuggest(s.rooms[k.room.value], c, k.id, raw.id)
       then
         var r := s.rooms[k.room.value];
         && CleanTrack(raw).Some?
         && var x := Suggestion(id, k.id, k.name, CleanTrack(raw).value);
            t == s.(rooms := s.rooms[k.room.value := r.(suggestions := r.suggestions[id := x])])
       else t == s
  }

  lemma SuggestIsDone(s: State, c: ConnId, id: SuggestionId, raw: Track)
    requires c in s.conns
    ensures SuggestDone(s, c, id, raw, DoSuggest(s, c, id, raw))
  {
    hide CleanTrack, ValidTrackId, SuggestOk, MaySuggest;
    CleanTrackFields(raw);
    var k := s.conns[c];
    if k.room.Some? && k.room.value in s.rooms && CleanTrack(raw).Some? { SuggestOkMeans(s, c, CleanTrack(raw).value); }
  }

  lemma SuggestFiles(s: State, c: ConnId, id: SuggestionId, raw: Track)
    requires Enabled(s, Step.Suggest(c, id, raw))
    ensures SuggestDone(s, c, id, raw, Next(s, Step.Suggest(c, id, raw)))
  {
    hide SuggestDone, DoSuggest;
    SuggestIsDone(s, c, id, raw);
  }

  /** The suggestion is settled, and its author, if away, will hear of it. */
  predicate Settled(r: Room, q: Room, id: SuggestionId, n: Notice)
    requires id in r.suggestions
  {
    var u := r.suggestions[id].author;
    q == r.(suggestions := r.suggestions - {id},
            notices := if u in r.clients then r.notices
                       else r.notices[u := (if u in r.notices then r.notices[u] else []) + [n]])
  }

  lemma ResolveSettles(r: Room, id: SuggestionId, n: Notice)
    requires Roster(r) && MailInv(r) && id in r.suggestions
    ensures Settled(r, Resolved(r, id, n), id, n)
  {
    hide Roster;
    var u := r.suggestions[id].author;
    assert u in r.clients || u in r.away;
    assert id in By(r.suggestions, u);
    assert |By(r.suggestions, u)| > 0;
  }

  lemma HomeRoster(s: State, c: ConnId)
    requires Inv(s) && c in s.conns && s.conns[c].room.Some?
    ensures s.conns[c].room.value in s.rooms
    ensures Roster(s.rooms[s.conns[c].room.value]) && MailInv(s.rooms[s.conns[c].room.value])
  {
    hide Inv, Departing, Roster, MailInv;
    ActiveFacts(s, c);
    InvRoster(s, s.conns[c].room.value);
  }

  /** The host turns a suggestion down; the author hears the cleaned reason. */
  predicate TurnDownDone(s: State, c: ConnId, id: SuggestionId, reason: Str, t: State)
  {
    && c in s.conns
    && var k := s.conns[c];
       if k.room.None? || k.room.value !in s.rooms then t == s
       else
         var ref := k.room.value;
         var r := s.rooms[ref];
         if r.host == Some(c) && r.hostAway.None? && id in r.suggestions
         then ref in t.rooms && t == s.(rooms := s.rooms[ref := t.rooms[ref]])
              && Settled(r, t.rooms[ref], id, Rejected(id, Sanitize(reason, 200)))
         else t == s
  }

  lemma TurnDownSettles(s: State, c: ConnId, id: SuggestionId, reason: Str)
    requires Inv(s) && Enabled(s, RejectSuggestion(c, id, reason))
    ensures TurnDownDone(s, c, id, reason, Next(s, RejectSuggestion(c, id, reason)))
  {
    hide Inv, Sanitize, Settled, Resolved, Roster, MailInv;
    var k := s.conns[c];
    if k.room.Some? {
      HomeRoster(s, c);
      var r := s.rooms[k.room.value];
      if id in r.suggestions { ResolveSettles(r, id, Rejected(id, Sanitize(reason, 200))); }
    }
  }

  /** The host takes a suggestion up: it is next in the queue, under the author's
      name, if the queue admits it; otherwise the suggestion stays, and one that was
      refused for its size stays signed with that name. */
  predicate TakeUpDone(s: State, c: ConnId, id: SuggestionId, now: int, t: State)
  {
    && InRoom(s, c)
    && var ref := s.conns[c].room.value;
       var r := s.rooms[ref];
       if !(Presides(s, c) && id in r.suggestions) then t == s
       else
         var track := r.suggestions[id].track.(suggestedBy := r.suggestions[id].authorName);
         var (play, o) := Suggested(r.play, track, now);
         if o.Applied?
         then ref in t.rooms && t == s.(rooms := s.rooms[ref := t.rooms[ref]], clock := now)
              && Settled(r.(play := play), t.rooms[ref], id, Approved(id, track))
         else if o == Failed(QueueTooLarge)
         then
           var signed := r.suggestions[id].(track := track);
           t == s.(rooms := s.rooms[ref := r.(suggestions := r.suggestions[id := signed])])
         else t == s
  }

  lemma TakeUpIsDone(s: State, c: ConnId, id: SuggestionId, now: int)
    requires InRoom(s, c) && Roster(RoomOf(s, c)) && MailInv(RoomOf(s, c))
    ensures TakeUpDone(s, c, id, now, DoApproveSuggestion(s, c, id, now))
  {
    hide Suggested, Resolved, Roster, MailInv;
    var r := RoomOf(s, c);
    if id in r.suggestions {
      var x := r.suggestions[id];
      ResolveSettles(r, id, Approved(id, x.track.(suggestedBy := x.authorName)));
    }
  }

  lemma TakeUpSettles(s: State, c: ConnId, id: SuggestionId, now: int)
    requires Inv(s) && Enabled(s, ApproveSuggestion(c, id, now))
    ensures TakeUpDone(s, c, id, now, Next(s, ApproveSuggestion(c, id, now)))
  {
    hide Inv, TakeUpDone, DoApproveSuggestion, Roster, MailInv;
    HomeRoster(s, c);
    TakeUpIsDone(s, c, id, now);
  }

  /** Only the host steers, and a request changes the playback of its room only. */
  lemma ControlSteers(s: State, c: ConnId, m: Request, now: int)
    requires Inv(s) && Enabled(s, Control(c, m, now))
    ensures var t := Next(s, Control(c, m, now)); var ref := s.conns[c].room.value; var r := s.rooms[ref];
            t == if Presides(s, c)
                 then s.(rooms := s.rooms[ref := r.(play := Handle(r.play, m, now, s.conns[c].rtt).0)], clock := now)
                 else s
  {
    hide Inv, Handle;
    ActiveAlways(s, c);
  }
}
