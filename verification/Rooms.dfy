/**
 One room as a value: members, reserved seats, roles, suggestions and notices,
 with the critical sections of the handlers as functions on it, and the
 invariant every one of them keeps.
 */
module Rooms {
  import opened Base
  import opened Tracks
  import opened Playback

  const MAX_MEMBERS := 100
  const MAX_PENDING := 100
  const MAX_SUGGESTIONS := 100
  const MAX_PER_USER := 10
  const FAILOVER_AFTER := 30_000_000_000 // 30 seconds in nanoseconds
  const GRACE := 900_000_000_000         // 15 minutes in nanoseconds
  const UNMEASURED_RTT := 3_600_000      // an hour in milliseconds

  /** A connection (`*Client`); allow is the allow tier, the only one that may
      host. The last flag is history: a disconnect turned its member into a seat. */
  datatype Conn = Conn(
    id: UserId, name: Str, token: Option<Token>, room: Option<Ref>, pendingRoom: Option<Ref>,
    closed: bool, allow: bool, rtt: int, detached: bool)

  type Conns = map<ConnId, Conn>

  /** A reserved seat (`*Session`) without its claimed flag. */
  datatype Session = Session(user: UserId, name: Str, code: Code, isHost: bool, at: Time)

  datatype UserInfo = UserInfo(id: UserId, name: Str, isHost: bool, isConnected: bool)

  datatype Suggestion = Suggestion(id: SuggestionId, author: UserId, authorName: Str, track: Track)

  /** A suggestion's outcome, kept for an author who is away. */
  datatype Notice = Approved(id: SuggestionId, track: Track) | Rejected(id: SuggestionId, reason: Str)

  datatype Room = Room(
    code: Code,
    host: Option<ConnId>,
    clients: map<UserId, ConnId>,
    pending: map<UserId, ConnId>,
    suggestions: map<SuggestionId, Suggestion>,
    away: map<UserId, Session>,
    users: seq<UserInfo>,
    hostId: Option<UserId>,
    hostAway: Option<Time>,
    owner: Option<UserId>,
    notices: map<UserId, seq<Notice>>,
    play: Play)

  // ---- the user list ----

  function Listed(us: seq<UserInfo>): set<UserId>
  {
    if us == [] then {} else {us[0].id} + Listed(us[1..])
  }

  /** Nobody is listed twice, exactly the users in `on` are flagged connected,
      and exactly the host is flagged host. */
  predicate WellListed(us: seq<UserInfo>, on: set<UserId>, host: Option<UserId>)
  {
    us != [] ==>
      && us[0].id !in Listed(us[1..])
      && (us[0].isConnected <==> us[0].id in on)
      && (us[0].isHost <==> host == Some(us[0].id))
      && WellListed(us[1..], on, host)
  }

  /** `withoutUser`. */
  function WithoutUser(us: seq<UserInfo>, u: UserId): seq<UserInfo>
  {
    if us == [] then []
    else if us[0].id == u then WithoutUser(us[1..], u)
    else [us[0]] + WithoutUser(us[1..], u)
  }

  method DropUser(us: seq<UserInfo>, u: UserId) returns (kept: seq<UserInfo>)
    ensures kept == WithoutUser(us, u)
  {
    kept := [];
    for i := 0 to |us|
      invariant kept == WithoutUser(us[..i], u)
    {
      assert us[..i + 1] == us[..i] + [us[i]];
      WithoutUserAppend(us[..i], us[i], u);
      if us[i].id != u { kept := kept + [us[i]]; }
    }
    assert us[..|us|] == us;
  }

  lemma {:induction false} WithoutUserAppend(us: seq<UserInfo>, x: UserInfo, u: UserId)
    ensures WithoutUser(us + [x], u) == if x.id == u then WithoutUser(us, u) else WithoutUser(us, u) + [x]
  {
    if us == [] {
      assert us + [x] == [x] && [x][1..] == [];
    } else {
      assert (us + [x])[1..] == us[1..] + [x];
      WithoutUserAppend(us[1..], x, u);
    }
  }

  /** Sets the connected flag of the first entry for u. */
  function MarkUser(us: seq<UserInfo>, u: UserId, connected: bool): seq<UserInfo>
  {
    if us == [] then []
    else if us[0].id == u then [us[0].(isConnected := connected)] + us[1..]
    else [us[0]] + MarkUser(us[1..], u, connected)
  }

  /** Flags exactly the host. */
  function FlagHost(us: seq<UserInfo>, host: Option<UserId>): seq<UserInfo>
  {
    if us == [] then [] else [us[0].(isHost := host == Some(us[0].id))] + FlagHost(us[1..], host)
  }

  lemma {:induction false} FlagHostAt(us: seq<UserInfo>, host: Option<UserId>)
    ensures |FlagHost(us, host)| == |us|
    ensures forall i :: 0 <= i < |us| ==> FlagHost(us, host)[i] == us[i].(isHost := host == Some(us[i].id))
  {
    if us != [] { FlagHostAt(us[1..], host); }
  }

  lemma {:induction false} MarkUserAt(us: seq<UserInfo>, u: UserId, b: bool, k: nat)
    requires k < |us| && us[k].id == u && forall i :: 0 <= i < k ==> us[i].id != u
    ensures MarkUser(us, u, b) == us[k := us[k].(isConnected := b)]
  {
    if k > 0 { MarkUserAt(us[1..], u, b, k - 1); }
  }

  lemma {:induction false} MarkNobody(us: seq<UserInfo>, u: UserId, b: bool)
    requires forall i :: 0 <= i < |us| ==> us[i].id != u
    ensures MarkUser(us, u, b) == us
  {
    if us != [] { MarkNobody(us[1..], u, b); }
  }

  /** What WellListed says entry by entry. */
  lemma {:induction false} WellListedMeans(us: seq<UserInfo>, on: set<UserId>, host: Option<UserId>)
    requires WellListed(us, on, host)
    ensures forall i :: 0 <= i < |us| ==>
              && us[i].id in Listed(us)
              && (us[i].isConnected <==> us[i].id in on)
              && (us[i].isHost <==> host == Some(us[i].id))
    ensures forall i, j :: 0 <= i < j < |us| ==> us[i].id != us[j].id
    ensures forall u :: u in Listed(us) ==> exists i :: 0 <= i < |us| && us[i].id == u
  {
    if us != [] {
      WellListedMeans(us[1..], on, host);
      assert forall i :: 0 < i < |us| ==> us[i] == us[1..][i - 1];
      forall u | u in Listed(us) ensures exists i :: 0 <= i < |us| && us[i].id == u {
        if u != us[0].id {
          var i :| 0 <= i < |us[1..]| && us[1..][i].id == u;
          assert us[i + 1].id == u;
        }
      }
    }
  }

  lemma {:induction false} WithoutUserFacts(us: seq<UserInfo>, on: set<UserId>, host: Option<UserId>, u: UserId)
    requires WellListed(us, on, host)
    ensures Listed(WithoutUser(us, u)) == Listed(us) - {u}
    ensures WellListed(WithoutUser(us, u), on - {u}, host)
  {
    if us != [] {
      WithoutUserFacts(us[1..], on, host, u);
      assert us[0].id != u ==> ([us[0]] + WithoutUser(us[1..], u))[1..] == WithoutUser(us[1..], u);
    }
  }

  lemma {:induction false} ConnectedElsewhere(us: seq<UserInfo>, on: set<UserId>, on': set<UserId>,
                                              host: Option<UserId>)
    requires WellListed(us, on, host)
    requires forall v :: v in Listed(us) ==> (v in on <==> v in on')
    ensures WellListed(us, on', host)
  {
    if us != [] { ConnectedElsewhere(us[1..], on, on', host); }
  }

  lemma {:induction false} MarkUserFacts(us: seq<UserInfo>, on: set<UserId>, host: Option<UserId>, u: UserId, b: bool)
    requires WellListed(us, on, host)
    ensures Listed(MarkUser(us, u, b)) == Listed(us)
    ensures WellListed(MarkUser(us, u, b), if b then on + {u} else on - {u}, host)
  {
    var on' := if b then on + {u} else on - {u};
    if us != [] {
      if us[0].id == u {
        ConnectedElsewhere(us[1..], on, on', host);
        assert MarkUser(us, u, b)[1..] == us[1..];
      } else {
        MarkUserFacts(us[1..], on, host, u, b);
        assert MarkUser(us, u, b)[1..] == MarkUser(us[1..], u, b);
      }
    }
  }

  lemma {:induction false} FlagHostFacts(us: seq<UserInfo>, on: set<UserId>, host: Option<UserId>,
                                         host': Option<UserId>)
    requires WellListed(us, on, host)
    ensures Listed(FlagHost(us, host')) == Listed(us)
    ensures WellListed(FlagHost(us, host'), on, host')
  {
    if us != [] {
      FlagHostFacts(us[1..], on, host, host');
      assert FlagHost(us, host')[1..] == FlagHost(us[1..], host');
    }
  }

  lemma {:induction false} AppendUserFacts(us: seq<UserInfo>, on: set<UserId>, host: Option<UserId>, x: UserInfo)
    requires WellListed(us, on, host) && x.id !in Listed(us)
    requires x.isConnected && (x.isHost <==> host == Some(x.id))
    ensures Listed(us + [x]) == Listed(us) + {x.id}
    ensures WellListed(us + [x], on + {x.id}, host)
  {
    if us == [] {
      assert us + [x] == [x] && [x][1..] == [];
    } else {
      AppendUserFacts(us[1..], on, host, x);
      assert (us + [x])[1..] == us[1..] + [x];
    }
  }

  /** The members are partitioned into `on` (connected) and `off` (reserved), and
      the list names each exactly once with the right flags. */
  predicate RosterOf(us: seq<UserInfo>, on: set<UserId>, off: set<UserId>, host: Option<UserId>)
  {
    on !! off && Listed(us) == on + off && WellListed(us, on, host)
  }

  lemma RosterAdd(us: seq<UserInfo>, on: set<UserId>, off: set<UserId>, host: Option<UserId>, u: UserId, name: Str)
    requires RosterOf(us, on, off, host) && u !in on && u !in off && host != Some(u)
    ensures RosterOf(us + [UserInfo(u, name, false, true)], on + {u}, off, host)
  {
    AppendUserFacts(us, on, host, UserInfo(u, name, false, true));
    hide WellListed, Listed;
  }

  lemma RosterOff(us: seq<UserInfo>, on: set<UserId>, off: set<UserId>, host: Option<UserId>, u: UserId)
    requires RosterOf(us, on, off, host) && u in on
    ensures RosterOf(MarkUser(us, u, false), on - {u}, off + {u}, host)
  {
    MarkUserFacts(us, on, host, u, false);
    hide WellListed, Listed, MarkUser;
  }

  lemma RosterOn(us: seq<UserInfo>, on: set<UserId>, off: set<UserId>, host: Option<UserId>, u: UserId)
    requires RosterOf(us, on, off, host) && u in off
    ensures RosterOf(MarkUser(us, u, true), on + {u}, off - {u}, host)
  {
    MarkUserFacts(us, on, host, u, true);
    hide WellListed, Listed, MarkUser;
  }

  lemma RosterDrop(us: seq<UserInfo>, on: set<UserId>, off: set<UserId>, host: Option<UserId>, u: UserId)
    requires RosterOf(us, on, off, host)
    ensures RosterOf(WithoutUser(us, u), on - {u}, off - {u}, host)
  {
    WithoutUserFacts(us, on, host, u);
    hide WellListed, Listed, WithoutUser;
  }

  lemma RosterFlag(us: seq<UserInfo>, on: set<UserId>, off: set<UserId>, host: Option<UserId>, host': Option<UserId>)
    requires RosterOf(us, on, off, host)
    ensures RosterOf(FlagHost(us, host'), on, off, host')
  {
    FlagHostFacts(us, on, host, host');
    hide WellListed, Listed, FlagHost;
  }

  // ---- choosing a host ----

  predicate Eligible(conns: Conns, c: ConnId) { c in conns && conns[c].allow && !conns[c].closed }

  /** The round trip `pickDeputy` ranks by: unmeasured clients count as an hour. */
  function Rank(conns: Conns, c: ConnId): int
    requires c in conns
  {
    if conns[c].rtt <= 0 then UNMEASURED_RTT else conns[c].rtt
  }

  predicate Candidate(clients: map<UserId, ConnId>, conns: Conns, u: UserId)
  {
    u in clients && Eligible(conns, clients[u])
  }

  /** u ranks strictly before v: lower round trip, ties broken by ID. */
  predicate Before(clients: map<UserId, ConnId>, conns: Conns, u: UserId, v: UserId)
    requires Candidate(clients, conns, u) && Candidate(clients, conns, v)
  {
    var a, b := Rank(conns, clients[u]), Rank(conns, clients[v]);
    a < b || (a == b && Less(u, v))
  }

  ghost predicate Best(clients: map<UserId, ConnId>, conns: Conns, u: UserId)
  {
    && Candidate(clients, conns, u)
    && forall v :: Candidate(clients, conns, v) && v != u ==> Before(clients, conns, u, v)
  }

  ghost predicate NoCandidate(clients: map<UserId, ConnId>, conns: Conns)
  {
    forall u :: !Candidate(clients, conns, u)
  }

  /** The deputy `pickDeputy` must return. */
  ghost predicate Deputy(clients: map<UserId, ConnId>, conns: Conns, d: Option<ConnId>)
  {
    match d
    case None => NoCandidate(clients, conns)
    case Some(c) => exists u :: Best(clients, conns, u) && clients[u] == c
  }

  /** Measured before unmeasured, which counts as an hour, then the lower round
      trip, then the lower ID. */
  predicate Preferred(mine: int, u: UserId, other: int, v: UserId)
  {
    && (0 < other < 3_600_000 ==> 0 < mine <= other)
    && (other <= 0 || other == 3_600_000 ==> mine <= 3_600_000)
    && (other > 3_600_000 ==> mine <= other)
    && (mine == other || (mine <= 0 && other <= 0) ==> Less(u, v))
    && ((mine <= 0 && other == 3_600_000) || (mine == 3_600_000 && other <= 0) ==> Less(u, v))
  }

  /** Of the clients that may host, u has the best measured connection. */
  ghost predicate Fastest(clients: map<UserId, ConnId>, conns: Conns, u: UserId)
  {
    && u in clients && clients[u] in conns && conns[clients[u]].allow && !conns[clients[u]].closed
    && forall v :: v in clients && v != u && clients[v] in conns && conns[clients[v]].allow && !conns[clients[v]].closed ==>
         Preferred(conns[clients[u]].rtt, u, conns[clients[v]].rtt, v)
  }

  /** No client may host. */
  ghost predicate NobodyMayHost(clients: map<UserId, ConnId>, conns: Conns)
  {
    forall u :: u in clients && clients[u] in conns && conns[clients[u]].allow ==> conns[clients[u]].closed
  }

  /** What the deputy is, in measured round trips and IDs: the fastest client that
      may host, and nobody only if no client may. */
  lemma DeputyIsFastest(clients: map<UserId, ConnId>, conns: Conns, d: Option<ConnId>)
    ensures Deputy(clients, conns, d) <==>
            match d
            case None => NobodyMayHost(clients, conns)
            case Some(c) => exists u :: Fastest(clients, conns, u) && clients[u] == c
  {
    hide Best, Fastest;
    forall u ensures Best(clients, conns, u) <==> Fastest(clients, conns, u) { BestIsFastest(clients, conns, u); }
    forall u ensures Fastest(clients, conns, u) || Best(clients, conns, u) ==> u in clients {
      BestIsClient(clients, conns, u);
    }
    assert d.None? && NobodyMayHost(clients, conns) ==> forall u :: !Candidate(clients, conns, u);
    if d.None? && Deputy(clients, conns, d) {
      forall u | u in clients && clients[u] in conns && conns[clients[u]].allow ensures conns[clients[u]].closed {
        assert !Candidate(clients, conns, u);
      }
    }
  }

  lemma BestIsClient(clients: map<UserId, ConnId>, conns: Conns, u: UserId)
    ensures Fastest(clients, conns, u) || Best(clients, conns, u) ==> u in clients
  {
  }

  lemma BestIsFastest(clients: map<UserId, ConnId>, conns: Conns, u: UserId)
    ensures Best(clients, conns, u) <==> Fastest(clients, conns, u)
  {
    hide Before, Preferred;
    if Candidate(clients, conns, u) {
      forall v | Candidate(clients, conns, v) && v != u
        ensures Before(clients, conns, u, v) <==> Preferred(conns[clients[u]].rtt, u, conns[clients[v]].rtt, v)
      {
        BeforeIsPreferred(clients, conns, u, v);
      }
      forall v | v in clients && v != u && clients[v] in conns && conns[clients[v]].allow && !conns[clients[v]].closed
        ensures Candidate(clients, conns, v)
      {
      }
    }
  }

  lemma BeforeIsPreferred(clients: map<UserId, ConnId>, conns: Conns, u: UserId, v: UserId)
    requires Candidate(clients, conns, u) && Candidate(clients, conns, v) && u != v
    ensures Before(clients, conns, u, v) <==> Preferred(conns[clients[u]].rtt, u, conns[clients[v]].rtt, v)
  {
    hide Less;
  }

  /** `pickDeputy`: a running best over the clients in whatever order they come. */
  method PickDeputy(clients: map<UserId, ConnId>, conns: Conns) returns (d: Option<ConnId>)
    ensures Deputy(clients, conns, d)
    ensures d.Some? ==> exists u :: Fastest(clients, conns, u) && clients[u] == d.value
    ensures d.None? ==> NobodyMayHost(clients, conns)
  {
    d := None;
    var best: UserId := [];
    var todo := clients.Keys;
    while todo != {}
      invariant todo <= clients.Keys
      invariant d.None? ==> forall v :: v in clients && v !in todo ==> !Candidate(clients, conns, v)
      invariant d.Some? ==> Candidate(clients, conns, best) && clients[best] == d.value && best !in todo
      invariant d.Some? ==> forall v :: v !in todo && Candidate(clients, conns, v) && v != best ==>
                  Before(clients, conns, best, v)
    {
      var u :| u in todo;
      if Candidate(clients, conns, u) && (d.None? || Before(clients, conns, u, best)) {
        if d.Some? {
          forall v | v !in todo && Candidate(clients, conns, v) && v != u ensures Before(clients, conns, u, v) {
            if v != best { BeforeTransitive(clients, conns, u, best, v); }
          }
        }
        d, best := Some(clients[u]), u;
      } else if Candidate(clients, conns, u) {
        LessTotal(u, best);
      }
      todo := todo - {u};
    }
    if d.Some? { assert Best(clients, conns, best); }
    DeputyIsFastest(clients, conns, d);
  }

  lemma BeforeTransitive(clients: map<UserId, ConnId>, conns: Conns, u: UserId, v: UserId, w: UserId)
    requires Candidate(clients, conns, u) && Candidate(clients, conns, v) && Candidate(clients, conns, w)
    requires Before(clients, conns, u, v) && Before(clients, conns, v, w)
    ensures Before(clients, conns, u, w)
  {
    if Less(u, v) && Less(v, w) { LessTransitive(u, v, w); }
  }

  /** The choice does not depend on the iteration order: there is exactly one deputy. */
  lemma DeputyUnique(clients: map<UserId, ConnId>, conns: Conns, d: Option<ConnId>, e: Option<ConnId>)
    requires Deputy(clients, conns, d) && Deputy(clients, conns, e)
    ensures d == e
  {
    if d.Some? && e.Some? {
      var u :| Best(clients, conns, u) && clients[u] == d.value;
      var v :| Best(clients, conns, v) && clients[v] == e.value;
      if u != v {
        LessAsymmetricRank(clients, conns, u, v);
      }
    }
  }

  lemma LessAsymmetricRank(clients: map<UserId, ConnId>, conns: Conns, u: UserId, v: UserId)
    requires Candidate(clients, conns, u) && Candidate(clients, conns, v) && Before(clients, conns, u, v)
    ensures !Before(clients, conns, v, u)
  {
    if Less(u, v) { LessAsymmetric(u, v); }
  }

  /** `assignHostLocked`: c takes the seat, or nobody does. */
  function AssignHost(r: Room, conns: Conns, c: Option<ConnId>): Room
    requires c.Some? ==> c.value in conns
  {
    var id := if c.Some? then Some(conns[c.value].id) else None;
    r.(host := c, hostAway := None, hostId := id, users := FlagHost(r.users, id), play := r.play.(lastHostSeq := 0))
  }

  // ---- critical sections ----

  function Unsuggest(sugs: map<SuggestionId, Suggestion>, u: UserId): map<SuggestionId, Suggestion>
  {
    map s | s in sugs && sugs[s].author != u :: sugs[s]
  }

  /** What kick, leave and expiry have in common once the seat itself is gone. */
  function Forget(r: Room, u: UserId): Room
  {
    r.(notices := r.notices - {u},
       suggestions := Unsuggest(r.suggestions, u),
       owner := if r.owner == Some(u) then None else r.owner,
       users := WithoutUser(r.users, u))
  }

  /** A new room with its creator seated (`handleCreateRoom`). */
  function Opened(code: Code, c: ConnId, u: UserId, name: Str, now: int): Room
  {
    Room(code, Some(c), map[u := c], map[], map[], map[], [UserInfo(u, name, true, true)], Some(u), None, None, map[],
         Play(None, false, 0, now, 1.0, [], 0, [], 0, 0))
  }

  /** `handleApproveJoin` once every check passed. */
  function Admitted(r: Room, key: UserId, c: ConnId, u: UserId, name: Str): Room
  {
    r.(pending := r.pending - {key}, clients := r.clients[u := c], users := r.users + [UserInfo(u, name, false, true)])
  }

  /** `handleClientDisconnect`: the seat stays reserved, the host's too. */
  function Disconnected(r: Room, c: ConnId, u: UserId, name: Str, now: Time): Room
  {
    var wasHost := r.host == Some(c);
    r.(clients := r.clients - {u},
       away := r.away[u := Session(u, name, r.code, wasHost, now)],
       users := MarkUser(r.users, u, false),
       host := if wasHost then None else r.host,
       hostAway := if wasHost then Some(now) else r.hostAway)
  }

  /** The room half of `handleReconnect`; conns already carries c's restored ID. */
  function Rejoined(r: Room, conns: Conns, c: ConnId, u: UserId): Room
    requires c in conns
  {
    var q := r.(clients := r.clients[u := c], away := r.away - {u}, users := MarkUser(r.users, u, true));
    var reclaim := r.hostId == Some(u) || r.owner == Some(u);
    var h := if conns[c].allow && (reclaim || (r.host.None? && r.hostId.None?))
             then AssignHost(q, conns, Some(c)).(owner := if r.owner == Some(u) then None else r.owner) else q;
    h.(notices := r.notices - {u})
  }

  /** `handleKickUser` on an active member, or on a reserved seat. */
  function Kicked(r: Room, u: UserId): Room
  {
    Forget(if u in r.clients then r.(clients := r.clients - {u}) else r.(away := r.away - {u}), u)
  }

  predicate Deserted(r: Room) { r.clients == map[] && r.away == map[] }

  /** `leaveRoom`; d is the deputy among the clients that remain. */
  function Left(r: Room, conns: Conns, c: ConnId, u: UserId, d: Option<ConnId>): Room
    requires d.Some? ==> d.value in conns
  {
    var q := Forget(r.(clients := r.clients - {u}, pending := r.pending - {u}, away := r.away - {u}), u);
    if Deserted(q) || r.host != Some(c) then q else AssignHost(q, conns, d)
  }

  /** `expireSession` for a seat that is still reserved. */
  function Expired(r: Room, conns: Conns, u: UserId, d: Option<ConnId>): Room
    requires d.Some? ==> d.value in conns
  {
    var q := Forget(r.(away := r.away - {u}), u);
    if r.hostId != Some(u) then q else AssignHost(q, conns, d)
  }

  /** `handleTransferHost` once the target passed. */
  function Transferred(r: Room, conns: Conns, c: ConnId): Room
    requires c in conns
  {
    AssignHost(r.(owner := None), conns, Some(c))
  }

  predicate FailoverDue(r: Room, now: Time)
  {
    r.hostAway.Some? && r.hostId.Some? && now - r.hostAway.value >= FAILOVER_AFTER
  }

  /** `failoverHostsOnce` when due and a deputy exists. */
  function FailedOver(r: Room, conns: Conns, c: ConnId): Room
    requires c in conns
  {
    AssignHost(r.(owner := if r.owner.None? then r.hostId else r.owner), conns, Some(c))
  }

  /** `hostlessDeadLocked`. */
  predicate Dead(r: Room) { r.hostId.None? && r.clients != map[] && r.away == map[] }

  function By(sugs: map<SuggestionId, Suggestion>, u: UserId): set<SuggestionId>
  {
    set s | s in sugs && sugs[s].author == u
  }

  /** `handleSuggestTrack` once every check passed. */
  function Submitted(r: Room, sug: Suggestion): Room
  {
    r.(suggestions := r.suggestions[sug.id := sug])
  }

  function NoticesIn(ns: map<UserId, seq<Notice>>, u: UserId): seq<Notice> { if u in ns then ns[u] else [] }

  /** `queueNoticeLocked`. */
  function QueueNotice(r: Room, u: UserId, n: Notice): Room
  {
    var ns := NoticesIn(r.notices, u);
    if u in r.away && |ns| < MAX_PER_USER then r.(notices := r.notices[u := ns + [n]]) else r
  }

  /** A suggestion leaves the list; its author hears now or on return. */
  function Resolved(r: Room, id: SuggestionId, n: Notice): Room
    requires id in r.suggestions
  {
    var u := r.suggestions[id].author;
    var q := r.(suggestions := r.suggestions - {id});
    if u in r.clients then q else QueueNotice(q, u, n)
  }

  /** An approval puts the author's name on the track before it checks the queue's
      size, so a suggestion that is refused for its size stays signed. */
  function Signed(r: Room, id: SuggestionId): Room
    requires id in r.suggestions
  {
    var x := r.suggestions[id];
    r.(suggestions := r.suggestions[id := x.(track := x.track.(suggestedBy := x.authorName))])
  }

  /** What `pendingHostWorkLocked` collects for a new host. */
  datatype Work = JoinRequest(user: UserId) | SuggestionReceived(id: SuggestionId)

  function HostWork(r: Room, conns: Conns): set<Work>
  {
    (set u | u in r.pending && r.pending[u] in conns && !conns[r.pending[u]].closed :: JoinRequest(u)) +
    (set s | s in r.suggestions :: SuggestionReceived(s))
  }

  /** The work lists every suggestion and every open application, and nothing else. */
  ghost predicate AllWork(work: set<Work>, pending: map<UserId, ConnId>, sugs: map<SuggestionId, Suggestion>, conns: Conns)
  {
    && (forall x :: SuggestionReceived(x) in work <==> x in sugs)
    && (forall u :: JoinRequest(u) in work <==> u in pending && pending[u] in conns && !conns[pending[u]].closed)
  }

  lemma HostWorkIsAll(r: Room, conns: Conns)
    ensures AllWork(HostWork(r, conns), r.pending, r.suggestions, conns)
  {
  }

  // ---- the invariant ----

  predicate Roster(r: Room)
  {
    && RosterOf(r.users, r.clients.Keys, r.away.Keys, r.hostId)
    && |r.clients| + |r.away| <= MAX_MEMBERS
    && SeatsOf(r.away, r.code)
  }

  /** Seats are filed under their own user and room. */
  predicate SeatsOf(away: map<UserId, Session>, code: Code)
  {
    forall u :: u in away ==> away[u].user == u && away[u].code == code
  }

  lemma SeatsChange(away: map<UserId, Session>, code: Code, u: UserId, x: Session)
    requires SeatsOf(away, code)
    ensures SeatsOf(away - {u}, code)
    ensures x.user == u && x.code == code ==> SeatsOf(away[u := x], code)
  {
  }

  predicate Seated(r: Room, conns: Conns)
  {
    && r.host.Some? && r.hostId.Some? && r.hostAway.None?
    && r.hostId.value in r.clients && r.clients[r.hostId.value] == r.host.value
    && r.host.value in conns && conns[r.host.value].allow
  }

  predicate HostIsAway(r: Room)
  {
    && r.host.None? && r.hostId.Some? && r.hostAway.Some?
    && r.hostId.value in r.away && r.away[r.hostId.value].isHost
  }

  predicate Hostless(r: Room, conns: Conns)
  {
    && r.host.None? && r.hostId.None? && r.hostAway.None?
    && forall u :: u in r.clients ==> !Eligible(conns, r.clients[u])
  }

  /** An owner waiting to return holds a reserved seat marked host. */
  predicate OwnerSeat(r: Room)
  {
    r.owner.Some? ==> r.owner.value in r.away && r.away[r.owner.value].isHost
  }

  /** A room with members has a seated host, a host who is away, or nobody
      connected who could host. */
  predicate HostInv(r: Room, conns: Conns)
  {
    && (!Deserted(r) ==> Seated(r, conns) || HostIsAway(r) || Hostless(r, conns))
    && OwnerSeat(r)
    && (r.owner.Some? ==> r.hostId != r.owner)
  }

  /** Suggestions belong to members, and every away member's notices leave room
      for the outcomes still to come. */
  predicate MailOf(sugs: map<SuggestionId, Suggestion>, ns: map<UserId, seq<Notice>>, on: set<UserId>, off: set<UserId>)
  {
    && (forall s :: s in sugs ==> sugs[s].id == s && (sugs[s].author in on || sugs[s].author in off))
    && ns.Keys <= off
    && (forall u :: u in on ==> |By(sugs, u)| <= MAX_PER_USER)
    && (forall u :: u in off ==> |NoticesIn(ns, u)| + |By(sugs, u)| <= MAX_PER_USER)
    && |sugs| <= MAX_SUGGESTIONS
  }

  predicate MailInv(r: Room) { MailOf(r.suggestions, r.notices, r.clients.Keys, r.away.Keys) }

  predicate RoomInv(r: Room, conns: Conns) { Roster(r) && HostInv(r, conns) && MailInv(r) }

  /** The three host states exclude each other. */
  lemma HostStatesExclusive(r: Room, conns: Conns)
    ensures !(Seated(r, conns) && HostIsAway(r))
    ensures !(Seated(r, conns) && Hostless(r, conns))
    ensures !(HostIsAway(r) && Hostless(r, conns))
  {
  }

  /** Connections may appear, close, or change identity elsewhere. */
  lemma RoomInvFrame(r: Room, conns: Conns, conns': Conns)
    requires RoomInv(r, conns)
    requires forall u :: u in r.clients ==>
               && r.clients[u] in conns && r.clients[u] in conns'
               && conns'[r.clients[u]].allow == conns[r.clients[u]].allow
               && (conns[r.clients[u]].closed ==> conns'[r.clients[u]].closed)
    ensures RoomInv(r, conns')
  {
  }

  // ---- every critical section keeps the invariant ----

  lemma KeysMinus<K, V>(m: map<K, V>, k: K)
    ensures (m - {k}).Keys == m.Keys - {k}
  {
  }

  lemma KeysPlus<K, V>(m: map<K, V>, k: K, v: V)
    ensures m[k := v].Keys == m.Keys + {k}
  {
  }

  lemma CardMinus<K, V>(m: map<K, V>, k: K)
    ensures |m - {k}| == if k in m then |m| - 1 else |m|
  {
    KeysMinus(m, k);
    assert |m.Keys| == |m| && |(m - {k}).Keys| == |m - {k}|;
  }

  lemma CardPlus<K, V>(m: map<K, V>, k: K, v: V)
    ensures |m[k := v]| == if k in m then |m| else |m| + 1
  {
    KeysPlus(m, k, v);
    assert |m.Keys| == |m| && |m[k := v].Keys| == |m[k := v]|;
    if k in m { assert m.Keys + {k} == m.Keys; }
  }

  lemma SuggestionsShrink(sugs: map<SuggestionId, Suggestion>, u: UserId)
    ensures |Unsuggest(sugs, u)| <= |sugs|
    ensures By(Unsuggest(sugs, u), u) == {}
    ensures forall v :: v != u ==> By(Unsuggest(sugs, u), v) == By(sugs, v)
  {
    var r := Unsuggest(sugs, u);
    assert r.Keys <= sugs.Keys;
    SubsetCard(r.Keys, sugs.Keys);
    assert |r| == |r.Keys| && |sugs| == |sugs.Keys|;
  }

  lemma {:induction false} SubsetCard<T>(a: set<T>, b: set<T>)
    requires a <= b
    ensures |a| <= |b|
  {
    if a != {} {
      var x :| x in a;
      SubsetCard(a - {x}, b - {x});
    }
  }

  lemma MailAdd(sugs: map<SuggestionId, Suggestion>, ns: map<UserId, seq<Notice>>, on: set<UserId>, off: set<UserId>,
                u: UserId)
    requires MailOf(sugs, ns, on, off) && u !in on && u !in off
    ensures MailOf(sugs, ns, on + {u}, off)
  {
    assert By(sugs, u) == {};
  }

  lemma MailDown(sugs: map<SuggestionId, Suggestion>, ns: map<UserId, seq<Notice>>, on: set<UserId>, off: set<UserId>,
                 u: UserId)
    requires MailOf(sugs, ns, on, off) && u in on && u !in off
    ensures MailOf(sugs, ns, on - {u}, off + {u})
  {
    assert NoticesIn(ns, u) == [];
  }

  lemma MailUp(sugs: map<SuggestionId, Suggestion>, ns: map<UserId, seq<Notice>>, on: set<UserId>, off: set<UserId>,
               u: UserId)
    requires MailOf(sugs, ns, on, off) && u in off
    ensures MailOf(sugs, ns - {u}, on + {u}, off - {u})
  {
    assert forall v :: v != u ==> NoticesIn(ns - {u}, v) == NoticesIn(ns, v);
  }

  lemma MailDrop(sugs: map<SuggestionId, Suggestion>, ns: map<UserId, seq<Notice>>, on: set<UserId>, off: set<UserId>,
                 u: UserId)
    requires MailOf(sugs, ns, on, off)
    ensures MailOf(Unsuggest(sugs, u), ns - {u}, on - {u}, off - {u})
  {
    SuggestionsShrink(sugs, u);
    assert forall v :: v != u ==> NoticesIn(ns - {u}, v) == NoticesIn(ns, v);
  }

  lemma MailSubmit(sugs: map<SuggestionId, Suggestion>, ns: map<UserId, seq<Notice>>, on: set<UserId>, off: set<UserId>,
                   x: Suggestion)
    requires MailOf(sugs, ns, on, off) && on !! off && x.author in on && x.id !in sugs
    requires |sugs| < MAX_SUGGESTIONS && |By(sugs, x.author)| < MAX_PER_USER
    ensures MailOf(sugs[x.id := x], ns, on, off)
  {
    hide By;
    var t := sugs[x.id := x];
    forall u | u in on ensures |By(t, u)| <= MAX_PER_USER { BySubmit(sugs, x, u); }
    forall u | u in off ensures By(t, u) == By(sugs, u) { BySubmit(sugs, x, u); }
  }

  lemma BySubmit(sugs: map<SuggestionId, Suggestion>, x: Suggestion, u: UserId)
    requires x.id !in sugs
    ensures By(sugs[x.id := x], u) == By(sugs, u) + (if u == x.author then {x.id} else {})
  {
  }

  lemma MailSettle(sugs: map<SuggestionId, Suggestion>, ns: map<UserId, seq<Notice>>, on: set<UserId>, off: set<UserId>,
                   id: SuggestionId)
    requires MailOf(sugs, ns, on, off) && id in sugs
    ensures MailOf(sugs - {id}, ns, on, off)
    ensures |By(sugs - {id}, sugs[id].author)| == |By(sugs, sugs[id].author)| - 1
  {
    var u := sugs[id].author;
    CardMinus(sugs, id);
    assert By(sugs - {id}, u) == By(sugs, u) - {id};
    assert forall v :: v != u ==> By(sugs - {id}, v) == By(sugs, v);
  }

  lemma MailNotify(sugs: map<SuggestionId, Suggestion>, ns: map<UserId, seq<Notice>>, on: set<UserId>, off: set<UserId>,
                   u: UserId, n: Notice)
    requires MailOf(sugs, ns, on, off) && on !! off && u in off
    requires |NoticesIn(ns, u)| + |By(sugs, u)| < MAX_PER_USER
    ensures MailOf(sugs, ns[u := NoticesIn(ns, u) + [n]], on, off)
  {
    assert forall v :: v != u ==> NoticesIn(ns[u := NoticesIn(ns, u) + [n]], v) == NoticesIn(ns, v);
  }

  lemma OpenedKeeps(code: Code, c: ConnId, u: UserId, name: Str, now: int, conns: Conns)
    requires c in conns && conns[c].allow
    ensures RoomInv(Opened(code, c, u, name, now), conns)
  {
    var r := Opened(code, c, u, name, now);
    assert By(r.suggestions, u) == {};
    assert r.users[1..] == [];
  }

  /** Admitting keeps the partition exactly when the ID has no reserved seat:
      the join and approval checks look at the active clients only. */
  lemma AdmittedRoster(r: Room, key: UserId, c: ConnId, u: UserId, name: Str)
    requires Roster(r) && u !in r.clients && |r.clients| + |r.away| < MAX_MEMBERS && r.hostId != Some(u)
    ensures Roster(Admitted(r, key, c, u, name)) <==> u !in r.away
  {
    KeysPlus(r.clients, u, c);
    if u !in r.away {
      RosterAdd(r.users, r.clients.Keys, r.away.Keys, r.hostId, u, name);
      hide RosterOf;
      assert |r.clients[u := c]| + |r.away| <= MAX_MEMBERS by { CardPlus(r.clients, u, c); }
    } else {
      assert u in Admitted(r, key, c, u, name).clients.Keys * r.away.Keys;
    }
  }

  lemma Apart(r: Room, u: UserId)
    requires Roster(r)
    ensures !(u in r.clients && u in r.away)
  {
  }

  lemma RosterApart(r: Room)
    requires Roster(r)
    ensures r.clients.Keys !! r.away.Keys
  {
  }

  lemma AdmittedHost(r: Room, conns: Conns, key: UserId, c: ConnId, u: UserId, name: Str)
    requires HostInv(r, conns) && Seated(r, conns) && u !in r.clients
    ensures HostInv(Admitted(r, key, c, u, name), conns) && Seated(Admitted(r, key, c, u, name), conns)
  {
  }

  lemma AdmittedMail(r: Room, key: UserId, c: ConnId, u: UserId, name: Str)
    requires MailInv(r) && u !in r.clients && u !in r.away
    ensures MailInv(Admitted(r, key, c, u, name))
  {
    hide MailOf;
    MailAdd(r.suggestions, r.notices, r.clients.Keys, r.away.Keys, u);
    KeysPlus(r.clients, u, c);
  }

  lemma AdmittedKeeps(r: Room, conns: Conns, key: UserId, c: ConnId, u: UserId, name: Str)
    requires RoomInv(r, conns) && Seated(r, conns)
    requires u !in r.clients && u !in r.away && |r.clients| + |r.away| < MAX_MEMBERS
    ensures RoomInv(Admitted(r, key, c, u, name), conns) && Seated(Admitted(r, key, c, u, name), conns)
  {
    assert r.hostId != Some(u);
    hide Roster, HostInv, MailInv, Seated, Admitted;
    AdmittedRoster(r, key, c, u, name);
    AdmittedHost(r, conns, key, c, u, name);
    AdmittedMail(r, key, c, u, name);
  }

  lemma DisconnectedRoster(r: Room, c: ConnId, u: UserId, name: Str, now: Time)
    requires Roster(r) && u in r.clients
    ensures Roster(Disconnected(r, c, u, name, now))
  {
    hide RosterOf, SeatsOf, MarkUser;
    Apart(r, u);
    var q := Disconnected(r, c, u, name, now);
    SeatsChange(r.away, r.code, u, q.away[u]);
    assert RosterOf(q.users, q.clients.Keys, q.away.Keys, q.hostId) by {
      RosterOff(r.users, r.clients.Keys, r.away.Keys, r.hostId, u);
      KeysMinus(r.clients, u);
      KeysPlus(r.away, u, q.away[u]);
    }
    assert |q.clients| + |q.away| <= MAX_MEMBERS by {
      CardMinus(r.clients, u);
      CardPlus(r.away, u, q.away[u]);
    }
  }

  lemma DisconnectedHost(r: Room, conns: Conns, c: ConnId, u: UserId, name: Str, now: Time)
    requires HostInv(r, conns) && u in r.clients && r.clients[u] == c && u !in r.away
    requires forall v :: v in r.clients && r.clients[v] == c ==> v == u
    ensures HostInv(Disconnected(r, c, u, name, now), conns)
  {
    hide MarkUser;
  }

  lemma DisconnectedMail(r: Room, c: ConnId, u: UserId, name: Str, now: Time)
    requires MailInv(r) && u in r.clients && u !in r.away
    ensures MailInv(Disconnected(r, c, u, name, now))
  {
    hide MailOf, MarkUser;
    MailDown(r.suggestions, r.notices, r.clients.Keys, r.away.Keys, u);
    KeysMinus(r.clients, u);
    KeysPlus(r.away, u, Disconnected(r, c, u, name, now).away[u]);
  }

  lemma DisconnectedKeeps(r: Room, conns: Conns, c: ConnId, u: UserId, name: Str, now: Time)
    requires RoomInv(r, conns) && u in r.clients && r.clients[u] == c
    requires forall v :: v in r.clients && r.clients[v] == c ==> v == u
    ensures RoomInv(Disconnected(r, c, u, name, now), conns)
  {
    assert u !in r.away;
    hide Roster, HostInv, MailInv, Disconnected;
    DisconnectedRoster(r, c, u, name, now);
    DisconnectedHost(r, conns, c, u, name, now);
    DisconnectedMail(r, c, u, name, now);
  }

  lemma AssignHostRoster(r: Room, conns: Conns, c: Option<ConnId>)
    requires Roster(r) && (c.Some? ==> c.value in conns)
    ensures Roster(AssignHost(r, conns, c))
  {
    hide RosterOf, SeatsOf, FlagHost;
    RosterFlag(r.users, r.clients.Keys, r.away.Keys, r.hostId, if c.Some? then Some(conns[c.value].id) else None);
  }

  lemma AssignHostMail(r: Room, conns: Conns, c: Option<ConnId>)
    requires MailInv(r) && (c.Some? ==> c.value in conns)
    ensures MailInv(AssignHost(r, conns, c))
  {
    hide MailOf, FlagHost;
  }

  /** Reassigning the seat touches no membership. */
  lemma AssignHostKeeps(r: Room, conns: Conns, c: Option<ConnId>)
    requires Roster(r) && MailInv(r) && OwnerSeat(r)
    requires match c
             case None => NoCandidate(r.clients, conns)
             case Some(k) => k in conns && conns[k].allow && conns[k].id in r.clients && r.clients[conns[k].id] == k
    ensures RoomInv(AssignHost(r, conns, c), conns)
    ensures if c.Some? then Seated(AssignHost(r, conns, c), conns) else Hostless(AssignHost(r, conns, c), conns)
  {
    hide Roster, MailInv, FlagHost;
    if c.Some? { Apart(r, conns[c.value].id); }
    AssignHostRoster(r, conns, c);
    AssignHostMail(r, conns, c);
    if c.None? {
      forall u | u in r.clients ensures !Eligible(conns, r.clients[u]) {
        assert !Candidate(r.clients, conns, u);
      }
    }
  }

  // -- leaving for good --

  /** A member gone from the room, before the seat is reassigned. */
  function Dropped(r: Room, u: UserId): Room
  {
    Forget(r.(clients := r.clients - {u}, away := r.away - {u}), u)
  }

  lemma DroppedFields(r: Room, u: UserId)
    ensures var q := Dropped(r, u);
            && q.code == r.code && q.host == r.host && q.hostId == r.hostId && q.hostAway == r.hostAway
            && q.clients == r.clients - {u} && q.away == r.away - {u} && q.pending == r.pending
            && q.users == WithoutUser(r.users, u) && q.notices == r.notices - {u}
            && q.suggestions == Unsuggest(r.suggestions, u)
            && q.owner == if r.owner == Some(u) then None else r.owner
  {
  }

  lemma DroppedRoster(r: Room, u: UserId)
    requires Roster(r)
    ensures Roster(Dropped(r, u))
  {
    hide RosterOf, SeatsOf, WithoutUser, Unsuggest, Dropped;
    DroppedFields(r, u);
    RosterDrop(r.users, r.clients.Keys, r.away.Keys, r.hostId, u);
    KeysMinus(r.clients, u);
    KeysMinus(r.away, u);
    DropCard(r.clients, r.away, u);
    SeatsChange(r.away, r.code, u, Session(u, [], r.code, false, 0));
  }

  lemma DropCard<K, V, W>(a: map<K, V>, b: map<K, W>, k: K)
    ensures |a - {k}| + |b - {k}| <= |a| + |b|
  {
    CardMinus(a, k);
    CardMinus(b, k);
  }

  lemma DroppedMail(r: Room, u: UserId)
    requires MailInv(r)
    ensures MailInv(Dropped(r, u))
  {
    hide MailOf, WithoutUser, Unsuggest;
    MailDrop(r.suggestions, r.notices, r.clients.Keys, r.away.Keys, u);
    CardMinus(r.clients, u);
    CardMinus(r.away, u);
  }

  /** Dropping anyone but the host leaves the seat as it was. */
  lemma DroppedHost(r: Room, conns: Conns, u: UserId)
    requires HostInv(r, conns) && !Deserted(r)
    ensures OwnerSeat(Dropped(r, u))
    ensures r.hostId != Some(u) || Deserted(Dropped(r, u)) ==> HostInv(Dropped(r, u), conns)
  {
    hide WithoutUser, Unsuggest;
  }

  lemma NothingToDrop<K, V>(m: map<K, V>, k: K)
    requires k !in m
    ensures m - {k} == m
  {
  }

  lemma KickedIsDropped(r: Room, u: UserId)
    requires Roster(r)
    ensures Kicked(r, u) == Dropped(r, u)
  {
    hide Roster, Forget;
    Apart(r, u);
    if u in r.clients { NothingToDrop(r.away, u); } else { NothingToDrop(r.clients, u); }
  }

  lemma KickedKeeps(r: Room, conns: Conns, u: UserId)
    requires RoomInv(r, conns) && !Deserted(r) && r.hostId != Some(u)
    ensures RoomInv(Kicked(r, u), conns)
  {
    hide Roster, HostInv, MailInv, Dropped, Kicked;
    KickedIsDropped(r, u);
    DroppedRoster(r, u);
    DroppedHost(r, conns, u);
    DroppedMail(r, u);
  }

  /** A departed member's place is filled, or nobody left can fill it. */
  lemma SuccessionKeeps(r: Room, conns: Conns, u: UserId, d: Option<ConnId>)
    requires RoomInv(r, conns) && !Deserted(r)
    requires Deputy(r.clients - {u}, conns, d) && Keyed(r, conns)
    ensures d.Some? ==> d.value in conns
    ensures RoomInv(AssignHost(Dropped(r, u), conns, d), conns)
  {
    hide Roster, HostInv, MailInv, AssignHost, WithoutUser, Unsuggest;
    DroppedRoster(r, u);
    DroppedHost(r, conns, u);
    DroppedMail(r, u);
    var q := Dropped(r, u);
    assert q.clients == r.clients - {u};
    if d.Some? {
      var v :| Best(r.clients - {u}, conns, v) && (r.clients - {u})[v] == d.value;
      assert v in r.clients;
    }
    AssignHostKeeps(q, conns, d);
  }

  /** Clients are filed under their own IDs. */
  predicate Keyed(r: Room, conns: Conns)
  {
    forall u :: u in r.clients ==> r.clients[u] in conns && conns[r.clients[u]].id == u
  }

  /** A host pointer and a host ID name the same active member. */
  lemma HostPointer(r: Room, conns: Conns, c: ConnId, u: UserId)
    requires RoomInv(r, conns) && Keyed(r, conns) && u in r.clients && r.clients[u] == c
    ensures r.host == Some(c) <==> r.hostId == Some(u)
  {
    Apart(r, u);
    hide Roster, MailInv;
    assert !Deserted(r);
  }

  lemma LeftKeeps(r: Room, conns: Conns, c: ConnId, u: UserId, d: Option<ConnId>)
    requires RoomInv(r, conns) && Keyed(r, conns) && u in r.clients && r.clients[u] == c
    requires Deputy(r.clients - {u}, conns, d)
    ensures d.Some? ==> d.value in conns
    ensures RoomInv(Left(r, conns, c, u, d), conns)
  {
    hide Roster, HostInv, MailInv, WithoutUser, Unsuggest;
    assert !Deserted(r);
    SuccessionKeeps(r, conns, u, d);
    HostPointer(r, conns, c, u);
    DroppedRoster(r, u);
    DroppedHost(r, conns, u);
    DroppedMail(r, u);
    var p := r.pending - {u};
    var q := Dropped(r, u);
    PendingIsElsewhere(q, conns, p);
    PendingIsElsewhere(AssignHost(q, conns, d), conns, p);
  }

  /** Nothing in the invariant is about applicants. */
  lemma PendingIsElsewhere(r: Room, conns: Conns, p: map<UserId, ConnId>)
    ensures Roster(r) ==> Roster(r.(pending := p))
    ensures HostInv(r, conns) ==> HostInv(r.(pending := p), conns)
    ensures MailInv(r) ==> MailInv(r.(pending := p))
  {
    hide Roster, HostInv, MailOf;
    SameSeats(r, r.(pending := p), conns);
  }

  lemma ExpiredKeeps(r: Room, conns: Conns, u: UserId, d: Option<ConnId>)
    requires RoomInv(r, conns) && Keyed(r, conns) && u in r.away
    requires Deputy(r.clients, conns, d)
    ensures d.Some? ==> d.value in conns
    ensures RoomInv(Expired(r, conns, u, d), conns)
  {
    hide Roster, HostInv, MailInv, WithoutUser, Unsuggest;
    assert !Deserted(r);
    Apart(r, u);
    assert r.clients - {u} == r.clients;
    SuccessionKeeps(r, conns, u, d);
    DroppedRoster(r, u);
    DroppedHost(r, conns, u);
    DroppedMail(r, u);
    assert Dropped(r, u) == Forget(r.(away := r.away - {u}), u);
  }

  // -- coming back --

  /** The member is active again, before any question of the seat. */
  function Returned(r: Room, c: ConnId, u: UserId): Room
  {
    r.(clients := r.clients[u := c], away := r.away - {u}, users := MarkUser(r.users, u, true), notices := r.notices - {u},
       owner := if r.owner == Some(u) then None else r.owner)
  }

  lemma ReturnedRoster(r: Room, c: ConnId, u: UserId)
    requires Roster(r) && u in r.away
    ensures Roster(Returned(r, c, u))
  {
    hide RosterOf, SeatsOf, MarkUser;
    Apart(r, u);
    var q := Returned(r, c, u);
    SeatsChange(r.away, r.code, u, r.away[u]);
    assert RosterOf(q.users, q.clients.Keys, q.away.Keys, q.hostId) by {
      RosterOn(r.users, r.clients.Keys, r.away.Keys, r.hostId, u);
      KeysPlus(r.clients, u, c);
      KeysMinus(r.away, u);
    }
    assert |q.clients| + |q.away| <= MAX_MEMBERS by {
      CardPlus(r.clients, u, c);
      CardMinus(r.away, u);
    }
  }

  lemma ReturnedMail(r: Room, c: ConnId, u: UserId)
    requires MailInv(r) && u in r.away
    ensures MailInv(Returned(r, c, u))
  {
    hide MailOf, MarkUser;
    MailUp(r.suggestions, r.notices, r.clients.Keys, r.away.Keys, u);
    KeysPlus(r.clients, u, c);
    KeysMinus(r.away, u);
  }

  /** Who takes the seat on return: its holder, the waiting owner, or anyone
      who may host a room that has no host. */
  predicate TakesSeat(r: Room, conns: Conns, c: ConnId, u: UserId)
    requires c in conns
  {
    conns[c].allow && (r.hostId == Some(u) || r.owner == Some(u) || (r.host.None? && r.hostId.None?))
  }

  /** Someone who takes no seat disturbs none, provided a host's own seat is
      only handed to a connection that may host. */
  lemma ReturnedHost(r: Room, conns: Conns, c: ConnId, u: UserId)
    requires HostInv(r, conns) && u in r.away && u !in r.clients && c in conns
    requires r.away[u].isHost ==> conns[c].allow
    ensures OwnerSeat(Returned(r, c, u))
    ensures if TakesSeat(r, conns, c, u)
            then Rejoined(r, conns, c, u) == AssignHost(Returned(r, c, u), conns, Some(c))
            else Rejoined(r, conns, c, u) == Returned(r, c, u) && HostInv(Returned(r, c, u), conns)
  {
    hide MarkUser;
  }

  lemma RejoinedKeeps(r: Room, conns: Conns, c: ConnId, u: UserId)
    requires RoomInv(r, conns) && u in r.away && c in conns && conns[c].id == u
    requires r.away[u].isHost ==> conns[c].allow
    ensures RoomInv(Rejoined(r, conns, c, u), conns)
  {
    hide Roster, HostInv, MailInv, MarkUser, Rejoined, AssignHost;
    Apart(r, u);
    ReturnedRoster(r, c, u);
    ReturnedMail(r, c, u);
    ReturnedHost(r, conns, c, u);
    if TakesSeat(r, conns, c, u) {
      AssignHostKeeps(Returned(r, c, u), conns, Some(c));
    }
  }

  /** Whoever owns the seat gets it back: a returning host or owner is seated,
      and no owner is left waiting for them. */
  lemma RejoinedReclaims(r: Room, conns: Conns, c: ConnId, u: UserId)
    requires RoomInv(r, conns) && u in r.away && c in conns && conns[c].id == u
    requires r.away[u].isHost ==> conns[c].allow
    requires r.hostId == Some(u) || r.owner == Some(u)
    ensures var q := Rejoined(r, conns, c, u);
            q.host == Some(c) && q.hostId == Some(u) && q.hostAway.None? && q.owner != Some(u)
  {
    hide Roster, MailInv, MarkUser, FlagHost;
    Apart(r, u);
    assert !Deserted(r);
  }

  /** A return that leaves a room nobody can ever host, which the reconnect does
      not close: exactly when the last absent member of a hostless room comes
      back and does not take the seat. */
  lemma RejoinedDead(r: Room, conns: Conns, c: ConnId, u: UserId)
    requires u in r.away && c in conns
    ensures Dead(Rejoined(r, conns, c, u)) <==> r.hostId.None? && !TakesSeat(r, conns, c, u) && r.away.Keys == {u}
  {
    hide MarkUser, FlagHost;
    KeysMinus(r.away, u);
    var q := Rejoined(r, conns, c, u);
    assert u in q.clients;
    assert q.away == map[] <==> q.away.Keys == {};
  }

  // -- the seat changes hands --

  lemma TransferredKeeps(r: Room, conns: Conns, c: ConnId)
    requires RoomInv(r, conns) && c in conns && conns[c].allow && conns[c].id in r.clients
             && r.clients[conns[c].id] == c
    ensures RoomInv(Transferred(r, conns, c), conns)
  {
    hide RosterOf, MailOf, FlagHost;
    AssignHostKeeps(r.(owner := None), conns, Some(c));
  }

  lemma FailedOverKeeps(r: Room, conns: Conns, c: ConnId)
    requires RoomInv(r, conns) && HostIsAway(r)
    requires c in conns && conns[c].allow && conns[c].id in r.clients && r.clients[conns[c].id] == c
    ensures RoomInv(FailedOver(r, conns, c), conns)
    ensures FailedOver(r, conns, c).owner == if r.owner.Some? then r.owner else r.hostId
  {
    hide RosterOf, MailOf, FlagHost;
    AssignHostKeeps(r.(owner := if r.owner.None? then r.hostId else r.owner), conns, Some(c));
  }

  // -- suggestions --

  lemma SubmittedKeeps(r: Room, conns: Conns, x: Suggestion)
    requires RoomInv(r, conns) && x.author in r.clients && x.id !in r.suggestions
    requires |r.suggestions| < MAX_SUGGESTIONS && |By(r.suggestions, x.author)| < MAX_PER_USER
    ensures RoomInv(Submitted(r, x), conns)
  {
    hide Roster, HostInv, MailOf;
    RosterApart(r);
    MailSubmit(r.suggestions, r.notices, r.clients.Keys, r.away.Keys, x);
    SameSeats(r, Submitted(r, x), conns);
  }

  /** Settling a suggestion stores a notice for every author who is away; an
      active author is sent theirs, if the connection is still open. */
  lemma ResolvedKeeps(r: Room, conns: Conns, id: SuggestionId, n: Notice)
    requires RoomInv(r, conns) && id in r.suggestions
    ensures RoomInv(Resolved(r, id, n), conns)
    ensures var u := r.suggestions[id].author;
            u in r.clients || NoticesIn(Resolved(r, id, n).notices, u) == NoticesIn(r.notices, u) + [n]
  {
    hide RosterOf, HostInv, MailInv, By;
    RosterApart(r);
    ResolvedMail(r, id, n);
    assert Roster(r) ==> Roster(Resolved(r, id, n)) by { ResolvedElsewhere(r, conns, id, n); }
    assert HostInv(r, conns) ==> HostInv(Resolved(r, id, n), conns) by { ResolvedElsewhere(r, conns, id, n); }
  }

  lemma SignedMail(sugs: map<SuggestionId, Suggestion>, ns: map<UserId, seq<Notice>>, on: set<UserId>, off: set<UserId>,
                   id: SuggestionId, t: Track)
    requires MailOf(sugs, ns, on, off) && id in sugs
    ensures MailOf(sugs[id := sugs[id].(track := t)], ns, on, off)
  {
    var signed := sugs[id := sugs[id].(track := t)];
    CardPlus(sugs, id, sugs[id].(track := t));
    forall u ensures By(signed, u) == By(sugs, u) {
    }
  }

  lemma SignedKeeps(r: Room, conns: Conns, id: SuggestionId)
    requires RoomInv(r, conns) && id in r.suggestions
    ensures RoomInv(Signed(r, id), conns)
  {
    hide Roster, HostInv, MailOf;
    var x := r.suggestions[id];
    SignedMail(r.suggestions, r.notices, r.clients.Keys, r.away.Keys, id, x.track.(suggestedBy := x.authorName));
    SameSeats(r, Signed(r, id), conns);
  }

  /** The roster and the seat read only these fields. */
  lemma SameSeats(r: Room, q: Room, conns: Conns)
    requires q.code == r.code && q.host == r.host && q.hostId == r.hostId && q.hostAway == r.hostAway
             && q.owner == r.owner
    requires q.clients == r.clients && q.away == r.away && q.users == r.users
    ensures Roster(r) ==> Roster(q)
    ensures HostInv(r, conns) ==> HostInv(q, conns)
  {
    hide RosterOf;
  }

  lemma ResolvedElsewhere(r: Room, conns: Conns, id: SuggestionId, n: Notice)
    requires id in r.suggestions
    ensures Roster(r) ==> Roster(Resolved(r, id, n))
    ensures HostInv(r, conns) ==> HostInv(Resolved(r, id, n), conns)
  {
    hide Roster, HostInv;
    SameSeats(r, Resolved(r, id, n), conns);
  }

  lemma ResolvedMail(r: Room, id: SuggestionId, n: Notice)
    requires MailInv(r) && id in r.suggestions && r.clients.Keys !! r.away.Keys
    ensures MailInv(Resolved(r, id, n))
    ensures var u := r.suggestions[id].author;
            u in r.clients || (u in r.away && NoticesIn(Resolved(r, id, n).notices, u) == NoticesIn(r.notices, u) + [n])
  {
    var u := r.suggestions[id].author;
    AuthorBound(r.suggestions, r.notices, r.clients.Keys, r.away.Keys, id);
    hide MailOf, By;
    MailSettle(r.suggestions, r.notices, r.clients.Keys, r.away.Keys, id);
    if u !in r.clients {
      MailNotify(r.suggestions - {id}, r.notices, r.clients.Keys, r.away.Keys, u, n);
    }
  }

  lemma AuthorBound(sugs: map<SuggestionId, Suggestion>, ns: map<UserId, seq<Notice>>, on: set<UserId>,
                    off: set<UserId>, id: SuggestionId)
    requires MailOf(sugs, ns, on, off) && id in sugs
    ensures var u := sugs[id].author; u in on || (u in off && |NoticesIn(ns, u)| + |By(sugs, u)| <= MAX_PER_USER)
    ensures id in By(sugs, sugs[id].author)
  {
  }
}
