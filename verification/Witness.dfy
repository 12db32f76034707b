/**
 The runs the other modules speak of exist. A host opens a room and admits a
 guest; the host drops out, the guest takes over and the host waits as the owner.
 From there every loss the other modules describe is reached.
 */
module Witness {
  import opened Base
  import opened Text
  import opened Tracks
  import opened Playback
  import opened Rooms
  import opened Links
  import opened Lobby
  import opened LobbyRooms
  import opened LobbyRuns
  import opened Runs
  import opened Records
  import opened Restart
  import opened Snapshots
  import opened Safety
  import opened Owners
  import opened Journeys
  import opened Losses

  /** Who takes part, whether the guests may host, under which tokens, and when
      somebody drops out and a failover comes due. */
  datatype Cast = Cast(host: UserId, guest: UserId, other: UserId, back: UserId, tier: bool, raw: Str, code: Code,
                       t0: Token, t1: Token, t2: Token, gone: Time, due: Time)

  ghost predicate Fit(x: Cast)
  {
    && x.host != x.guest && x.other != x.host && x.other != x.guest && x.back != x.host && x.back != x.guest
    && x.back != x.other
    && Sanitize(x.raw, MAX_USERNAME) != []
    && x.t0 != x.t1 && x.t0 != x.t2 && x.t1 != x.t2 && x.t0 != [] && x.t1 != [] && x.t2 != []
    && x.due - x.gone >= FAILOVER_AFTER
  }

  function Visitor(id: UserId, allow: bool): Conn { Conn(id, [], None, None, None, false, allow, 0, false) }

  function Greeted(s: State, c: ConnId, id: UserId, allow: bool): State
  {
    s.(conns := s.conns[c := Visitor(id, allow)], usedIds := s.usedIds + {id})
  }

  lemma GreetedIsReachable(s: State, c: ConnId, id: UserId, allow: bool)
    requires Reachable(s) && c !in s.conns && id !in s.usedIds
    ensures Reachable(Greeted(s, c, id, allow))
  {
    hide Reachable;
    ReachableStep(s, Connect(c, id, allow));
  }

  function Arrived(x: Cast): State
  {
    Greeted(Greeted(Greeted(Greeted(Empty, 0, x.host, true), 1, x.guest, x.tier), 2, x.other, x.tier), 3, x.back, x.tier)
  }

  lemma ArrivedIsReachable(x: Cast)
    requires Fit(x)
    ensures Reachable(Arrived(x))
  {
    hide Reachable, Sanitize;
    EmptyIsReachable();
    GreetedIsReachable(Empty, 0, x.host, true);
    GreetedIsReachable(Greeted(Empty, 0, x.host, true), 1, x.guest, x.tier);
    var s := Greeted(Greeted(Empty, 0, x.host, true), 1, x.guest, x.tier);
    GreetedIsReachable(s, 2, x.other, x.tier);
    GreetedIsReachable(Greeted(s, 2, x.other, x.tier), 3, x.back, x.tier);
  }

  function Opening(x: Cast): State
  {
    Created(Arrived(x), 0, Sanitize(x.raw, MAX_USERNAME), x.code, 0, x.t0, 1)
  }

  lemma OpeningIsReachable(x: Cast)
    requires Fit(x)
    ensures Reachable(Opening(x))
  {
    hide Reachable, Sanitize, Arrived, Created;
    ArrivedIsReachable(x);
    ArrivedFacts(x);
    ReachableStep(Arrived(x), Create(0, x.raw, x.code, 0, x.t0, 1));
  }

  lemma ArrivedFacts(x: Cast)
    requires Fit(x)
    ensures var s := Arrived(x);
            && s.rooms == map[] && s.registry == map[] && |s.registry| == 0 && s.attempts == map[]
            && s.usedTokens == {[]} && s.clock == 0
            && 0 in s.conns && s.conns[0] == Visitor(x.host, true)
  {
    hide Sanitize;
  }

  lemma OpeningFacts(x: Cast)
    requires Fit(x)
    ensures var s := Opening(x);
            && s.rooms.Keys == {0} && s.registry == map[x.code := 0] && s.closing == {} && s.attempts == map[]
            && s.sessions == map[]
            && s.rooms[0].code == x.code && s.rooms[0].clients == map[x.host := 0] && s.rooms[0].away == map[]
            && s.rooms[0].pending == map[] && s.rooms[0].suggestions == map[] && s.rooms[0].notices == map[]
            && s.rooms[0].host == Some(0) && s.rooms[0].hostId == Some(x.host) && s.rooms[0].hostAway.None?
            && s.rooms[0].owner.None?
            && s.conns.Keys == {0, 1, 2, 3} && s.conns[0].room == Some(0) && s.conns[0].id == x.host
            && s.conns[0].token == Some(x.t0)
            && s.conns[1] == Visitor(x.guest, x.tier) && s.conns[2] == Visitor(x.other, x.tier)
            && s.conns[3] == Visitor(x.back, x.tier)
            && s.usedTokens == {[], x.t0} && s.clock == 1
  {
    hide Sanitize;
  }

  // ---- somebody joins ----

  /** The state once c's application to h's room was approved. */
  function Admits(s: State, c: ConnId, name: Str, ref: Ref, token: Token): State
    requires c in s.conns && ref in s.rooms
  {
    Admit(Joined(s, c, name, ref), c, ref, s.conns[c].id, token)
  }

  lemma AdmitsIsReachable(s: State, c: ConnId, raw: Str, code: Code, h: ConnId, token: Token)
    requires Reachable(s) && Welcome(s, c, raw, code, h, token)
    ensures Reachable(Admits(s, c, Sanitize(raw, MAX_USERNAME), s.registry[code], token))
  {
    hide Reachable, Sanitize;
    var ref, name := s.registry[code], Sanitize(raw, MAX_USERNAME);
    ReachableStep(s, Join(c, raw, code));
    var t := Joined(s, c, name, ref);
    assert Next(s, Join(c, raw, code)) == t;
    assert Answers(t, h, s.conns[c].id) && Admissible(t, h, s.conns[c].id);
    assert Newcomer(t, s.conns[c].id) by { StillNew(s, t, s.conns[c].id); }
    ReachableStep(t, Approve(h, s.conns[c].id, token));
  }

  lemma StillNew(s: State, t: State, u: UserId)
    requires Newcomer(s, u) && t.rooms.Keys == s.rooms.Keys
    requires forall x :: x in s.rooms ==> t.rooms[x].clients == s.rooms[x].clients && t.rooms[x].away == s.rooms[x].away
    ensures Newcomer(t, u)
  {
    forall x ensures !MemberIn(t.rooms, x, u) { assert !MemberIn(s.rooms, x, u); }
  }

  function Together(x: Cast): State
    requires Fit(x)
  {
    OpeningFacts(x);
    Admits(Opening(x), 1, Sanitize(x.raw, MAX_USERNAME), 0, x.t1)
  }

  lemma TogetherIsReachable(x: Cast)
    requires Fit(x)
    ensures Reachable(Together(x))
  {
    hide Reachable, Sanitize, Opening;
    OpeningIsReachable(x);
    OpeningFacts(x);
    var s := Opening(x);
    assert |s.rooms[0].clients| == 1 && |s.rooms[0].away| == 0 && |s.rooms[0].pending| == 0;
    assert Welcome(s, 1, x.raw, x.code, 0, x.t1);
    AdmitsIsReachable(s, 1, x.raw, x.code, 0, x.t1);
  }

  lemma TogetherFacts(x: Cast)
    requires Fit(x)
    ensures var s := Together(x);
            && s.rooms.Keys == {0} && s.registry == map[x.code := 0] && s.closing == {} && s.attempts == map[]
            && s.sessions == map[]
            && s.rooms[0].code == x.code && s.rooms[0].clients == map[x.host := 0, x.guest := 1]
            && s.rooms[0].away == map[]
            && s.rooms[0].pending == map[] && s.rooms[0].suggestions == map[] && s.rooms[0].notices == map[]
            && s.rooms[0].host == Some(0) && s.rooms[0].hostId == Some(x.host) && s.rooms[0].hostAway.None?
            && s.rooms[0].owner.None?
            && s.conns.Keys == {0, 1, 2, 3} && s.conns[0].room == Some(0) && s.conns[0].id == x.host
            && s.conns[0].token == Some(x.t0)
            && s.conns[1].room == Some(0) && s.conns[1].id == x.guest && s.conns[1].allow == x.tier
            && !s.conns[1].closed
            && s.conns[2] == Visitor(x.other, x.tier) && s.conns[3] == Visitor(x.back, x.tier)
            && s.usedTokens == {[], x.t0, x.t1} && s.clock == 1
  {
    hide Sanitize, Opening;
    OpeningFacts(x);
  }

  // ---- the host drops out ----

  function Alone(x: Cast): State
    requires Fit(x)
  {
    TogetherFacts(x);
    Detached(Together(x), 0, 0, x.t0, x.gone)
  }

  lemma AloneIsReachable(x: Cast)
    requires Fit(x)
    ensures Reachable(Alone(x))
  {
    hide Reachable, Together, Detached;
    TogetherIsReachable(x);
    TogetherFacts(x);
    ReachableStep(Together(x), Detach(0, x.gone, x.t2));
  }

  lemma AloneFacts(x: Cast)
    requires Fit(x)
    ensures var s := Alone(x);
            && 0 in s.rooms && Registered(s, 0) && s.closing == {} && 1 in s.conns && (x.tier ==> Eligible(s.conns, 1))
            && s.rooms[0].clients == map[x.guest := 1] && s.rooms[0].owner.None? && s.rooms[0].hostId == Some(x.host)
            && FailoverDue(s.rooms[0], x.due) && x.host in s.rooms[0].away && s.rooms[0].away[x.host].at == x.gone
  {
    hide Together, MarkUser;
    TogetherFacts(x);
  }

  /** With one eligible client, that client is the deputy. */
  lemma OnlyDeputy(clients: map<UserId, ConnId>, conns: Conns, u: UserId, c: ConnId)
    requires clients == map[u := c] && Eligible(conns, c)
    ensures Deputy(clients, conns, Some(c))
  {
    assert Best(clients, conns, u);
  }

  ghost function TakenOver(x: Cast): State
    requires Fit(x)
  {
    AloneFacts(x);
    DoFailover(Alone(x), 0, x.due, Some(1))
  }

  /** A reachable state in which the host waits as the owner while the guest
      holds the seat. */
  lemma OwnersDoWait(x: Cast)
    requires Fit(x) && x.tier
    ensures var t := TakenOver(x);
            && Reachable(t) && Waits(t, 0, x.host) && t.rooms[0].host == Some(1)
            && x.host in t.rooms[0].away && t.rooms[0].away[x.host].at == x.gone
            && t.rooms[0].clients == map[x.guest := 1]
  {
    hide Reachable, Fit, Alone, Deputy, FailedOver, FailoverDue, Eligible;
    AloneIsReachable(x);
    AloneFacts(x);
    var s := Alone(x);
    OnlyDeputy(s.rooms[0].clients, s.conns, x.guest, 1);
    FailedOverFields(s.rooms[0], s.conns, 1);
    ReachableStep(s, Failover(0, x.due, Some(1)));
  }

  // ---- the losses are reached ----

  /** A snapshot between the two halves of cleanup forgets an absent host, and a
      waiting owner. */
  lemma SeatsDoGetLost(x: Cast, now: Time, rec: Record, conns: Conns, flushed: Option<Time>, later: Time, nowMs: int)
    requires Fit(x) && now - x.gone > GRACE
    ensures var t := DoTake(Alone(x), now);
            Reachable(t) && (Snapped(rec, t, x.code) ==> !HostInv(Restored(rec, flushed, later, nowMs), conns))
    ensures x.tier ==> var t := DoTake(TakenOver(x), now);
            Reachable(t) && (Snapped(rec, t, x.code) ==> !HostInv(Restored(rec, flushed, later, nowMs), conns))
  {
    hide Reachable, Fit, Alone, Snapped, HostInv, Restored, DoTake, TakenOver;
    AloneIsReachable(x);
    AloneFacts(x);
    AloneCode(x);
    var s := Alone(x);
    TakeIsReachable(s, now);
    if Snapped(rec, DoTake(s, now), x.code) {
      SeatCanBeLost(s, DoTake(s, now), 0, x.host, x.guest, now, rec, conns, flushed, later, nowMs);
    }
    if x.tier {
      var s' := TakenOver(x);
      OwnersDoWait(x);
      TakenOverCode(x);
      TakeIsReachable(s', now);
      if Snapped(rec, DoTake(s', now), x.code) {
        SeatCanBeLost(s', DoTake(s', now), 0, x.host, x.guest, now, rec, conns, flushed, later, nowMs);
      }
    }
  }

  lemma AloneCode(x: Cast)
    requires Fit(x)
    ensures Alone(x).rooms.Keys == {0} && Alone(x).rooms[0].code == x.code
  {
    hide Together, MarkUser;
    TogetherFacts(x);
  }

  lemma TakenOverCode(x: Cast)
    requires Fit(x) && x.tier
    ensures 0 in TakenOver(x).rooms && TakenOver(x).rooms[0].code == x.code
  {
    hide Alone, FailedOver, FailoverDue, Eligible, Fit;
    AloneFacts(x);
    AloneCode(x);
    FailedOverFields(Alone(x).rooms[0], Alone(x).conns, 1);
  }

  lemma TakeIsReachable(s: State, now: Time)
    requires Reachable(s)
    ensures Reachable(DoTake(s, now))
  {
    hide Reachable, DoTake;
    ReachableStep(s, Take(now));
  }

  /** A second guest joins and drops out; neither guest may host. */
  function Crowded(x: Cast): State
    requires Fit(x)
  {
    TogetherFacts(x);
    Admits(Together(x), 2, Sanitize(x.raw, MAX_USERNAME), 0, x.t2)
  }

  lemma CrowdedIsReachable(x: Cast)
    requires Fit(x)
    ensures Reachable(Crowded(x))
  {
    hide Reachable, Sanitize, Together;
    TogetherIsReachable(x);
    TogetherFacts(x);
    var s := Together(x);
    assert |s.rooms[0].clients| == 2 && |s.rooms[0].away| == 0 && |s.rooms[0].pending| == 0;
    assert Welcome(s, 2, x.raw, x.code, 0, x.t2);
    AdmitsIsReachable(s, 2, x.raw, x.code, 0, x.t2);
  }

  lemma CrowdedFacts(x: Cast)
    requires Fit(x)
    ensures var s := Crowded(x);
            && s.rooms.Keys == {0} && s.registry == map[x.code := 0] && s.closing == {} && s.attempts == map[]
            && s.sessions == map[]
            && s.rooms[0].clients == map[x.host := 0, x.guest := 1, x.other := 2] && s.rooms[0].away == map[]
            && s.rooms[0].code == x.code
            && s.rooms[0].host == Some(0) && s.rooms[0].hostId == Some(x.host) && s.rooms[0].hostAway.None?
            && s.conns.Keys == {0, 1, 2, 3} && s.conns[0].room == Some(0) && s.conns[0].id == x.host
            && s.conns[1].id == x.guest && s.conns[1].allow == x.tier
            && s.conns[2].room == Some(0) && s.conns[2].id == x.other && s.conns[2].token == Some(x.t2)
            && s.conns[2].allow == x.tier
            && s.conns[3] == Visitor(x.back, x.tier)
            && s.usedTokens == {[], x.t0, x.t1, x.t2}
  {
    hide Sanitize, Together;
    TogetherFacts(x);
  }

  /** A room does end up with members, without anybody who could ever host it, and
      with nothing under way to close it. */
  lemma RoomsDoDie(x: Cast, token: Token) returns (f: State)
    requires Fit(x) && !x.tier && token !in {[], x.t0, x.t1, x.t2}
    ensures Reachable(f) && Registered(f, 0) && Dead(f.rooms[0]) && 0 !in f.closing
  {
    hide Reachable, Crowded, Sanitize, Dead;
    CrowdedIsReachable(x);
    CrowdedFacts(x);
    var s := Crowded(x);
    ReachableStep(s, Detach(2, x.gone, token));
    var t := Detached(s, 2, 0, x.t2, x.gone);
    assert Next(s, Detach(2, x.gone, token)) == t;
    WaningNow(x, s, t);
    f := RoomCanDie(t, 0, 3, 0, x.other, x.t2, x.gone);
  }

  lemma WaningNow(x: Cast, s: State, t: State)
    requires Fit(x) && !x.tier && s == Crowded(x) && 2 in s.conns && 0 in s.rooms
             && t == Detached(s, 2, 0, x.t2, x.gone)
    ensures Waning(t, 0, 3, 0, x.other, x.t2, x.gone)
  {
    hide Crowded, Sanitize, Disconnected;
    CrowdedFacts(x);
    var r := s.rooms[0];
    DisconnectedFields(r, 2, x.other, s.conns[2].name, x.gone);
    assert t.rooms[0].clients == map[x.host := 0, x.guest := 1];
    assert t.rooms[0].away.Keys == {x.other};
    assert NoCandidate(t.rooms[0].clients - {x.host}, t.conns);
    assert x.guest in t.rooms[0].clients.Keys;
  }

  /** An outcome is lost: the guest suggests a track and their connection closes,
      the host rejects it, and nobody is told. */
  lemma OutcomesDoGetLost(x: Cast, id: SuggestionId, track: Track, reason: Str) returns (f: State)
    requires Fit(x) && CleanTrack(track).Some?
    ensures Reachable(f) && Registered(f, 0) && x.guest in f.rooms[0].clients && f.rooms[0].suggestions == map[]
            && f.rooms[0].notices == map[]
    ensures f.rooms[0].clients[x.guest] == 1 && 1 in f.conns && f.conns[1].closed
  {
    hide Reachable, Together, Sanitize, CleanTrack, Resolved;
    TogetherFacts(x);
    var t := Suggests(x, id, track);
    ReachableStep(t, Close(1));
    var e := Next(t, Close(1));
    var n := Rejected(id, Sanitize(reason, 200));
    ReachableStep(e, RejectSuggestion(0, id, reason));
    f := Next(e, RejectSuggestion(0, id, reason));
    assert f == PutRoom(e, 0, Resolved(t.rooms[0], id, n));
    ResolvedFields(t.rooms[0], id, n);
    ResolvedQuietly(t.rooms[0], id, n);
  }

  lemma Suggests(x: Cast, id: SuggestionId, track: Track) returns (t: State)
    requires Fit(x) && CleanTrack(track).Some?
    ensures Reachable(t) && t.rooms.Keys == {0} && t.conns == Together(x).conns && t.registry == map[x.code := 0]
    ensures t.rooms[0].suggestions.Keys == {id} && t.rooms[0].suggestions[id].author == x.guest
            && t.rooms[0].code == x.code
    ensures t.rooms[0].clients == map[x.host := 0, x.guest := 1] && t.rooms[0].host == Some(0)
            && t.rooms[0].hostAway.None?
    ensures t.rooms[0].notices == map[] && t.attempts == map[]
  {
    hide Reachable, Together, Sanitize, CleanTrack;
    TogetherIsReachable(x);
    TogetherFacts(x);
    var s := Together(x);
    assert By(s.rooms[0].suggestions, x.guest) == {} && SuggestOk(s, 1, CleanTrack(track).value);
    ReachableStep(s, Step.Suggest(1, id, track));
    t := DoSuggest(s, 1, id, track);
    assert Next(s, Step.Suggest(1, id, track)) == t;
  }
}
