/**
 The room as the handlers see it: an object whose fields they change in place
 under its lock. Every method is proved against the value functions of Rooms.
 */
module RoomObject {
  import opened Base
  import opened Tracks
  import opened Playback
  import opened Rooms

  /** What has to be delivered after the seat was assigned (`hostChange`). */
  datatype HostChange = HostChange(host: Option<ConnId>, announce: Option<UserId>, work: set<Work>)

  class RoomCell {
    const code: Code
    var host: Option<ConnId>
    var clients: map<UserId, ConnId>
    var pending: map<UserId, ConnId>
    var suggestions: map<SuggestionId, Suggestion>
    var away: map<UserId, Session>
    var users: seq<UserInfo>
    var hostId: Option<UserId>
    var hostAway: Option<Time>
    var owner: Option<UserId>
    var notices: map<UserId, seq<Notice>>
    var play: Play

    function State(): Room
      reads this
    {
      Room(code, host, clients, pending, suggestions, away, users, hostId, hostAway, owner, notices, play)
    }

    /** The room `handleCreateRoom` makes. */
    constructor (code: Code, c: ConnId, u: UserId, name: Str, nowMs: int)
      ensures State() == Opened(code, c, u, name, nowMs)
    {
      this.code := code;
      host, clients, pending, suggestions, away := Some(c), map[u := c], map[], map[], map[];
      users, hostId, hostAway, owner, notices := [UserInfo(u, name, true, true)], Some(u), None, None, map[];
      play := Play(None, false, 0, nowMs, 1.0, [], 0, [], 0, 0);
    }

    // ---- loops ----

    method FlagUsers(id: Option<UserId>)
      modifies this`users
      ensures users == FlagHost(old(users), id)
    {
      for i := 0 to |users|
        invariant |users| == |old(users)|
        invariant forall j :: 0 <= j < i ==> users[j] == old(users)[j].(isHost := id == Some(old(users)[j].id))
        invariant forall j :: i <= j < |users| ==> users[j] == old(users)[j]
      {
        users := users[i := users[i].(isHost := id.Some? && users[i].id == id.value)];
      }
      FlagHostAt(old(users), id);
    }

    method SetConnected(u: UserId, b: bool)
      modifies this`users
      ensures users == MarkUser(old(users), u, b)
    {
      for i := 0 to |users|
        invariant users == old(users) && forall j :: 0 <= j < i ==> users[j].id != u
      {
        if users[i].id == u {
          MarkUserAt(users, u, b, i);
          users := users[i := users[i].(isConnected := b)];
          return;
        }
      }
      MarkNobody(users, u, b);
    }

    method RemoveUser(u: UserId)
      modifies this`users
      ensures users == WithoutUser(old(users), u)
    {
      users := DropUser(users, u);
    }

    /** `removeUserSuggestionsLocked`. */
    method RemoveSuggestions(u: UserId)
      modifies this`suggestions
      ensures suggestions == Unsuggest(old(suggestions), u)
    {
      var todo := suggestions.Keys;
      while todo != {}
        invariant todo <= old(suggestions).Keys
        invariant suggestions == map s | s in old(suggestions)
                  && (s in todo || old(suggestions)[s].author != u) :: old(suggestions)[s]
      {
        var s :| s in todo;
        if suggestions[s].author == u { suggestions := suggestions - {s}; }
        todo := todo - {s};
      }
    }

    /** `pendingHostWorkLocked`: closed applicants are skipped. */
    method PendingWork(conns: Conns) returns (work: set<Work>)
      ensures work == HostWork(State(), conns) && AllWork(work, pending, suggestions, conns)
    {
      work := {};
      var todo := pending.Keys;
      while todo != {}
        invariant todo <= pending.Keys
        invariant work == set u | u in pending && u !in todo && pending[u] in conns
                  && !conns[pending[u]].closed :: JoinRequest(u)
      {
        var u :| u in todo;
        if pending[u] in conns && !conns[pending[u]].closed { work := work + {JoinRequest(u)}; }
        todo := todo - {u};
      }
      ghost var joins := work;
      var left := suggestions.Keys;
      while left != {}
        invariant left <= suggestions.Keys
        invariant work == joins + set s | s in suggestions && s !in left :: SuggestionReceived(s)
      {
        var s :| s in left;
        work := work + {SuggestionReceived(s)};
        left := left - {s};
      }
    }

    // ---- the seat ----

    /** `assignHostLocked`. */
    method Assign(conns: Conns, c: Option<ConnId>) returns (change: HostChange)
      requires c.Some? ==> c.value in conns
      modifies this
      ensures State() == AssignHost(old(State()), conns, c)
      ensures change.host == c && (c.None? ==> change.work == {})
              && (c.Some? ==> change.work == HostWork(State(), conns) && AllWork(change.work, pending, suggestions, conns))
      ensures change.announce == (if c.Some? && old(hostId) != Some(conns[c.value].id) then Some(conns[c.value].id) else None)
    {
      hide FlagHost, HostWork, AllWork;
      var previous := hostId;
      host, hostAway := c, None;
      play := play.(lastHostSeq := 0);
      var id := None;
      if c.Some? { id := Some(conns[c.value].id); }
      hostId := id;
      FlagUsers(id);
      var announce := None;
      if id.Some? && id != previous { announce := id; }
      var work := {};
      if c.Some? { work := PendingWork(conns); }
      change := HostChange(c, announce, work);
    }

    /** `handleTransferHost` once the target passed. */
    method Transfer(conns: Conns, c: ConnId) returns (change: HostChange)
      requires c in conns
      modifies this
      ensures State() == Transferred(old(State()), conns, c)
      ensures change.host == Some(c) && change.work == HostWork(State(), conns)
              && AllWork(change.work, pending, suggestions, conns)
    {
      owner := None;
      change := Assign(conns, Some(c));
    }

    /** `failoverHostsOnce` for this room, under its locks. */
    method Failover(conns: Conns, now: Time) returns (change: Option<HostChange>)
      modifies this
      ensures exists d :: Deputy(old(clients), conns, d) && (d.Some? ==> d.value in conns) &&
                State() == (if FailoverDue(old(State()), now) && d.Some? then FailedOver(old(State()), conns, d.value) else old(State()))
      ensures change.Some? ==> change.value.host.Some? && AllWork(change.value.work, pending, suggestions, conns)
      ensures change.None? ==> State() == old(State())
      ensures change.Some? <==> FailoverDue(old(State()), now) && exists u :: Candidate(old(clients), conns, u)
    {
      var d := PickDeputy(clients, conns);
      DeputyExists(clients, conns, d);
      if hostAway.None? || hostId.None? || now - hostAway.value < FAILOVER_AFTER { return None; }
      if d.None? { return None; }
      if owner.None? { owner := hostId; }
      var h := Assign(conns, d);
      return Some(h);
    }

    // ---- members come and go ----

    /** What kick, leave and expiry have in common. */
    method Forget(u: UserId)
      modifies this
      ensures State() == Rooms.Forget(old(State()), u)
    {
      notices := notices - {u};
      RemoveSuggestions(u);
      if owner == Some(u) { owner := None; }
      RemoveUser(u);
    }

    method Kick(u: UserId)
      modifies this
      ensures State() == Kicked(old(State()), u)
    {
      if u in clients { clients := clients - {u}; } else { away := away - {u}; }
      Forget(u);
    }

    /** `handleApproveJoin` once every check passed. */
    method Admit(key: UserId, c: ConnId, u: UserId, name: Str)
      modifies this
      ensures State() == Admitted(old(State()), key, c, u, name)
    {
      pending := pending - {key};
      clients := clients[u := c];
      users := users + [UserInfo(u, name, false, true)];
    }

    /** `handleClientDisconnect`. */
    method Disconnect(c: ConnId, u: UserId, name: Str, now: Time) returns (session: Session)
      modifies this
      ensures State() == Disconnected(old(State()), c, u, name, now) && u in away && session == away[u]
    {
      var wasHost := host == Some(c);
      session := Session(u, name, code, wasHost, now);
      clients := clients - {u};
      away := away[u := session];
      SetConnected(u, false);
      if wasHost { host, hostAway := None, Some(now); }
    }

    /** The room half of `handleReconnect`; the notices kept for u are handed out. */
    method Rejoin(conns: Conns, c: ConnId, u: UserId) returns (change: Option<HostChange>, kept: seq<Notice>)
      requires c in conns
      modifies this
      ensures State() == Rejoined(old(State()), conns, c, u)
      ensures kept == NoticesIn(old(notices), u)
      ensures change.Some? <==> TakesSeat(old(State()), conns, c, u)
      ensures change.Some? ==> change.value.host == Some(c) && AllWork(change.value.work, pending, suggestions, conns)
    {
      hide MarkUser, FlagHost, HostWork, AllWork;
      clients := clients[u := c];
      away := away - {u};
      SetConnected(u, true);
      var reclaim := hostId == Some(u) || owner == Some(u);
      change := None;
      if conns[c].allow && (reclaim || (host.None? && hostId.None?)) {
        var h := Assign(conns, Some(c));
        change := Some(h);
        if owner == Some(u) { owner := None; }
      }
      kept := NoticesIn(notices, u);
      notices := notices - {u};
    }

    /** `leaveRoom`; the flag says whether nobody left can ever host. */
    method Leave(conns: Conns, c: ConnId, u: UserId) returns (change: Option<HostChange>, dead: bool)
      modifies this
      ensures exists d :: Deputy(old(clients) - {u}, conns, d) && (d.Some? ==> d.value in conns) &&
                State() == Left(old(State()), conns, c, u, d)
      ensures dead == Dead(State())
      ensures change.Some? <==> old(host) == Some(c) && !Deserted(State())
      ensures change.Some? ==>
                change.value.host == host && (host.Some? ==> AllWork(change.value.work, pending, suggestions, conns))
    {
      clients := clients - {u};
      pending := pending - {u};
      away := away - {u};
      Forget(u);
      change, dead := None, false;
      var d := PickDeputy(clients, conns);
      DeputyExists(clients, conns, d);
      if clients == map[] && away == map[] { return; }
      if host == Some(c) {
        var h := Assign(conns, d);
        change := Some(h);
      }
      dead := hostId.None? && clients != map[] && away == map[];
    }

    /** `expireSession`; a seat that is gone already is left alone. */
    method Expire(conns: Conns, u: UserId) returns (change: Option<HostChange>, dead: bool)
      modifies this
      ensures u !in old(away) ==> State() == old(State()) && !dead
      ensures u in old(away) ==> dead == Dead(State())
      ensures u in old(away) ==>
                exists d :: Deputy(old(clients), conns, d) && (d.Some? ==>
                  d.value in conns) && State() == Expired(old(State()), conns, u, d)
      ensures change.Some? <==> u in old(away) && old(hostId) == Some(u)
      ensures change.Some? ==>
                change.value.host == host && (host.Some? ==> AllWork(change.value.work, pending, suggestions, conns))
    {
      change, dead := None, false;
      if u !in away { return; }
      away := away - {u};
      Forget(u);
      var d := PickDeputy(clients, conns);
      DeputyExists(clients, conns, d);
      if hostId == Some(u) {
        var h := Assign(conns, d);
        change := Some(h);
      }
      dead := hostId.None? && clients != map[] && away == map[];
    }

    // ---- suggestions ----

    /** `queueNoticeLocked`. */
    method KeepNotice(u: UserId, n: Notice)
      modifies this`notices
      ensures State() == QueueNotice(old(State()), u, n)
    {
      if u !in away { return; }
      var ns := NoticesIn(notices, u);
      if |ns| < MAX_PER_USER { notices := notices[u := ns + [n]]; }
    }

    /** A suggestion is settled; the result says whether the author is there to be told. */
    method Resolve(id: SuggestionId, n: Notice) returns (tell: Option<ConnId>)
      requires id in suggestions
      modifies this
      ensures State() == Resolved(old(State()), id, n)
      ensures var u := old(suggestions)[id].author; tell == (if u in clients then Some(clients[u]) else None)
    {
      var u := suggestions[id].author;
      suggestions := suggestions - {id};
      tell := None;
      if u in clients { tell := Some(clients[u]); } else { KeepNotice(u, n); }
    }

    /** The checks of `handleSuggestTrack` on the author's other suggestions. */
    method CountSuggestions(u: UserId, track: Str) returns (mine: nat, duplicate: bool)
      ensures duplicate == exists x :: x in suggestions && suggestions[x].author == u && suggestions[x].track.id == track
      ensures !duplicate ==> mine == |By(suggestions, u)|
    {
      mine, duplicate := 0, false;
      var todo := suggestions.Keys;
      ghost var seen: set<SuggestionId> := {};
      while todo != {}
        invariant todo <= suggestions.Keys
        invariant seen == set s | s in suggestions && s !in todo && suggestions[s].author == u
        invariant mine == |seen| && !duplicate
        invariant forall s :: s in seen ==> suggestions[s].track.id != track
      {
        var s :| s in todo;
        todo := todo - {s};
        if suggestions[s].author == u {
          if suggestions[s].track.id == track { return mine, true; }
          mine := mine + 1;
          seen := seen + {s};
        }
      }
      assert seen == By(suggestions, u);
    }
  }

  lemma DeputyExists(clients: map<UserId, ConnId>, conns: Conns, d: Option<ConnId>)
    requires Deputy(clients, conns, d)
    ensures d.Some? ==> d.value in conns
  {
  }
}
