/**
 The host's inbox: everything waiting for the host's decision has been sent to
 whoever holds the seat, or is on its way to them, in every reachable state.
 A handler queues its messages after it released the room, so a message is an
 errand first and reaches the host in a step of its own.
 */
module Inbox {
  import opened Base
  import opened Text
  import opened Tracks
  import opened Playback
  import opened Rooms
  import opened Links
  import opened Lobby
  import opened LobbyRooms
  import opened LobbyLinks
  import opened Tokens
  import opened LobbyRuns
  import opened LobbyTimers
  import opened Runs
  import opened Restart
  import opened Reboot
  import opened Owners

  /** A message on its way: about room ref, to connection h. */
  datatype Errand = Errand(ref: Ref, h: ConnId, work: Work)

  /** What the present holder of each seat has been sent, and what is under way. */
  datatype Desk = Desk(told: set<(Ref, Work)>, errands: set<Errand>)

  datatype Move = Act(a: Step) | Deliver(e: Errand)

  // ---- what the handlers send ----

  /** A handler tells the host if one is connected. */
  function Tell(s: State, ref: Ref, w: Work): set<Errand>
    requires ref in s.rooms
  {
    var r := s.rooms[ref];
    if r.host.Some? && r.hostAway.None? then {Errand(ref, r.host.value, w)} else {}
  }

  /** `replayHostWork` after the seat was assigned. */
  ghost function Replay(t: State, ref: Ref): set<Errand>
    requires ref in t.rooms
  {
    if t.rooms[ref].host.None? then {}
    else set w | w in HostWork(t.rooms[ref], t.conns) :: Errand(ref, t.rooms[ref].host.value, w)
  }

  /** The room whose seat the step assigns (`assignHostLocked`). */
  ghost function Assigns(s: State, a: Step): Option<Ref>
    requires Enabled(s, a)
  {
    match a
    case Transfer(c, u) => if TransferOk(s, c, u) then s.conns[c].room else None
    case Leave(c, _) =>
      if Active(s, c) && RoomOf(s, c).host == Some(c) && !Deserted(Next(s, a).rooms[s.conns[c].room.value]) then s.conns[c].room else None
    case Expire(x, _) =>
      if x.user in s.rooms[s.registry[x.code]].away && s.rooms[s.registry[x.code]].hostId == Some(x.user)
      then Some(s.registry[x.code]) else None
    case Failover(ref, now, d) => if FailoverDue(s.rooms[ref], now) && d.Some? then Some(ref) else None
    case Consume(c, ref) =>
      if Succeeds(s, c, ref) && TakesSeat(s.rooms[ref], Next(s, a).conns, c, s.attempts[c].session.user) then Some(ref) else None
    case _ => None
  }

  /** The application or suggestion the step files. */
  ghost function News(s: State, a: Step): set<(Ref, Work)>
    requires Enabled(s, a)
  {
    match a
    case Join(c, raw, code) =>
      if JoinHeard(s, c, raw, code) && JoinOk(s.rooms[s.registry[code]], s.conns[c].id)
      then {(s.registry[code], JoinRequest(s.conns[c].id))} else {}
    case Suggest(c, id, raw) =>
      if s.conns[c].room.Some? && s.conns[c].room.value in s.rooms && CleanTrack(raw).Some? && SuggestOk(s, c, CleanTrack(raw).value)
      then {(s.conns[c].room.value, SuggestionReceived(id))} else {}
    case _ => {}
  }

  ghost function Sends(s: State, a: Step): set<Errand>
    requires Enabled(s, a)
  {
    var t := Next(s, a);
    (set n, e | n in News(s, a) && n.0 in s.rooms && e in Tell(s, n.0, n.1) :: e)
    + (if Assigns(s, a).Some? && Assigns(s, a).value in t.rooms then Replay(t, Assigns(s, a).value) else {})
  }

  /** The seat of ref is held by the same connection as before. */
  predicate SameHost(s: State, t: State, ref: Ref)
  {
    ref in s.rooms && ref in t.rooms && s.rooms[ref].host == t.rooms[ref].host
  }

  /** The work waits before and after the step. What is settled is forgotten, told
      or under way, so that a new application under the same ID is announced anew. */
  predicate StillOpen(s: State, t: State, ref: Ref, w: Work)
  {
    ref in s.rooms && ref in t.rooms && w in HostWork(s.rooms[ref], s.conns) && w in HostWork(t.rooms[ref], t.conns)
  }

  ghost predicate CanMove(s: State, desk: Desk, m: Move)
  {
    match m
    case Act(a) => Enabled(s, a) && Proper(s, a)
    case Deliver(e) => e in desk.errands
  }

  /** A step files its errands; a delivery counts if its receiver still has the
      seat. A message counts for as long as the work it speaks of stays open. */
  ghost function Moved(s: State, desk: Desk, m: Move): (State, Desk)
    requires CanMove(s, desk, m)
  {
    match m
    case Act(a) =>
      var t := Next(s, a);
      (t, Desk((set p | p in desk.told && SameHost(s, t, p.0) && StillOpen(s, t, p.0, p.1)),
               (set e | e in desk.errands && StillOpen(s, t, e.ref, e.work)) + Sends(s, a)))
    case Deliver(e) =>
      (s, Desk(if e.ref in s.rooms && s.rooms[e.ref].host == Some(e.h) then desk.told + {(e.ref, e.work)} else desk.told,
               desk.errands - {e}))
  }

  // ---- completeness ----

  predicate Hosted(s: State, ref: Ref) { Registered(s, ref) && !Deserted(s.rooms[ref]) && s.rooms[ref].host.Some? }

  /** h has been sent w about room ref, or will be. */
  predicate Informed(desk: Desk, ref: Ref, h: ConnId, w: Work)
  {
    (ref, w) in desk.told || Errand(ref, h, w) in desk.errands
  }

  /** The host of every room is informed of every suggestion, and of every
      application whose connection is still open. */
  ghost predicate Complete(s: State, desk: Desk)
  {
    forall ref :: Hosted(s, ref) ==>
      var r := s.rooms[ref];
      && (forall x :: x in r.suggestions ==> Informed(desk, ref, r.host.value, SuggestionReceived(x)))
      && (forall u :: u in r.pending && r.pending[u] in s.conns && !s.conns[r.pending[u]].closed ==>
            Informed(desk, ref, r.host.value, JoinRequest(u)))
  }

  /** The same in terms of what `pendingHostWorkLocked` collects. */
  ghost predicate Covers(s: State, desk: Desk)
  {
    forall ref, w :: Hosted(s, ref) && w in HostWork(s.rooms[ref], s.conns) ==> Informed(desk, ref, s.rooms[ref].host.value, w)
  }

  lemma CompleteIffCovers(s: State, desk: Desk)
    ensures Complete(s, desk) <==> Covers(s, desk)
  {
    hide HostWork, Informed, Deserted;
    forall ref | Hosted(s, ref)
      ensures var r := s.rooms[ref]; AllWork(HostWork(r, s.conns), r.pending, r.suggestions, s.conns)
    {
      HostWorkIsAll(s.rooms[ref], s.conns);
    }
    if Covers(s, desk) {
      forall ref, x | Hosted(s, ref) && x in s.rooms[ref].suggestions
        ensures Informed(desk, ref, s.rooms[ref].host.value, SuggestionReceived(x))
      {
        assert SuggestionReceived(x) in HostWork(s.rooms[ref], s.conns);
      }
      forall ref, u | Hosted(s, ref) && u in s.rooms[ref].pending && s.rooms[ref].pending[u] in s.conns
                      && !s.conns[s.rooms[ref].pending[u]].closed
        ensures Informed(desk, ref, s.rooms[ref].host.value, JoinRequest(u))
      {
        assert JoinRequest(u) in HostWork(s.rooms[ref], s.conns);
      }
    }
    if Complete(s, desk) {
      forall ref, w | Hosted(s, ref) && w in HostWork(s.rooms[ref], s.conns)
        ensures Informed(desk, ref, s.rooms[ref].host.value, w)
      {
        match w
        case JoinRequest(u) =>
        case SuggestionReceived(x) =>
      }
    }
  }

  /** q asks the same host for nothing r did not ask, but for the news. */
  ghost predicate Calm(r: Room, q: Room, ref: Ref, news: set<(Ref, Work)>)
  {
    && q.host == r.host && (!Deserted(q) ==> !Deserted(r))
    && (forall u :: u in q.pending ==> (u in r.pending && q.pending[u] == r.pending[u]) || (ref, JoinRequest(u)) in news)
    && (forall x :: x in q.suggestions ==> x in r.suggestions || (ref, SuggestionReceived(x)) in news)
  }

  ghost predicate CalmStep(s: State, t: State, seat: Option<Ref>, news: set<(Ref, Work)>)
  {
    && Ages(s.conns, t.conns)
    && forall ref :: Hosted(t, ref) && seat != Some(ref) ==>
         || (Registered(s, ref) && Calm(s.rooms[ref], t.rooms[ref], ref, news))
         || (t.rooms[ref].pending == map[] && t.rooms[ref].suggestions == map[])
  }

  lemma CalmPut(s: State, t: State, ref: Ref, q: Room, seat: Option<Ref>, news: set<(Ref, Work)>)
    requires ref in s.rooms && q.code == s.rooms[ref].code && Ages(s.conns, t.conns)
    requires t.rooms == s.rooms[ref := q] && t.registry == s.registry
    requires seat == Some(ref) || q.host.None? || Calm(s.rooms[ref], q, ref, news)
    ensures CalmStep(s, t, seat, news)
  {
    forall x | Hosted(t, x) && seat != Some(x) ensures Registered(s, x) && Calm(s.rooms[x], t.rooms[x], x, news) {
      assert Registered(s, x);
    }
  }

  lemma CalmSame(s: State, t: State, seat: Option<Ref>, news: set<(Ref, Work)>)
    requires t.rooms == s.rooms && t.registry == s.registry && Ages(s.conns, t.conns)
    ensures CalmStep(s, t, seat, news)
  {
    forall x | Hosted(t, x) ensures Registered(s, x) && Calm(s.rooms[x], t.rooms[x], x, news) {
    }
  }

  // ---- step by step ----

  lemma LeftCalm(r: Room, conns: Conns, c: ConnId, u: UserId, d: Option<ConnId>, ref: Ref)
    requires d.Some? ==> d.value in conns
    ensures var q := Left(r, conns, c, u, d);
            r.host != Some(c) || Deserted(q) ==> Calm(r, q, ref, {})
  {
    hide WithoutUser, FlagHost;
  }

  lemma LeftRoomCalm(s: State, t: State, c: ConnId, d: Option<ConnId>, ref: Ref)
    requires ref in s.rooms && c in s.conns && (d.Some? ==> d.value in s.conns) && t.registry == s.registry
             && Ages(s.conns, t.conns)
    requires t.rooms == s.rooms[ref := Left(s.rooms[ref], s.conns, c, s.conns[c].id, d)]
    ensures CalmStep(s, t, if s.rooms[ref].host == Some(c) && !Deserted(t.rooms[ref]) then Some(ref) else None, {})
  {
    hide Left, CalmStep, Calm, Deserted, Ages;
    var q := Left(s.rooms[ref], s.conns, c, s.conns[c].id, d);
    LeftFields(s.rooms[ref], s.conns, c, s.conns[c].id, d);
    LeftCalm(s.rooms[ref], s.conns, c, s.conns[c].id, d, ref);
    CalmPut(s, t, ref, q, if s.rooms[ref].host == Some(c) && !Deserted(q) then Some(ref) else None, {});
  }

  lemma ClearRoomAges(conns: Conns, c: ConnId, ref: Ref)
    ensures Ages(conns, ClearRoom(conns, c, ref))
  {
  }

  lemma LeaveShape(s: State, c: ConnId, d: Option<ConnId>)
    requires InRoom(s, c) && (d.Some? ==> d.value in s.conns)
    ensures var t := DoLeave(s, c, d); var ref := s.conns[c].room.value;
            && t.registry == s.registry && t.conns == ClearRoom(s.conns, c, ref)
            && (Active(s, c) ==> t.rooms == s.rooms[ref := Left(s.rooms[ref], s.conns, c, s.conns[c].id, d)])
            && (!Active(s, c) ==> t.rooms == s.rooms)
  {
    hide Left, Refs, Dead, ClearRoom;
  }

  lemma LeaveCalm(s: State, c: ConnId, d: Option<ConnId>)
    requires InRoom(s, c) && (d.Some? ==> d.value in s.conns)
    ensures var ref := s.conns[c].room.value;
            var seat := if Active(s, c) && s.rooms[ref].host == Some(c) && !Deserted(DoLeave(s, c, d).rooms[ref]) then Some(ref) else None;
            CalmStep(s, DoLeave(s, c, d), seat, {})
  {
    hide Left, CalmStep, Deserted, DoLeave, Ages;
    var ref := s.conns[c].room.value;
    var t := DoLeave(s, c, d);
    LeaveShape(s, c, d);
    ClearRoomAges(s.conns, c, ref);
    if Active(s, c) {
      LeftRoomCalm(s, t, c, d, ref);
    } else {
      CalmSame(s, t, None, {});
    }
  }

  lemma DetachCalm(s: State, c: ConnId, now: Time, spare: Token)
    requires InRoom(s, c)
    ensures CalmStep(s, DoDetach(s, c, now, spare), None, {})
  {
    hide CalmStep, MarkUser;
    var t := DoDetach(s, c, now, spare);
    if Active(s, c) {
      CalmPut(s, t, s.conns[c].room.value, t.rooms[s.conns[c].room.value], None, {});
    } else {
      CalmSame(s, t, None, {});
    }
  }

  lemma WithdrawCalm(s: State, c: ConnId, ref: Ref, key: UserId)
    requires ref in s.rooms
    ensures CalmStep(s, Withdrawn(s, c, ref, key), None, {})
  {
    hide CalmStep;
    var t := Withdrawn(s, c, ref, key);
    CalmPut(s, t, ref, t.rooms[ref], None, {});
  }

  lemma PendingCalm(s: State, c: ConnId)
    requires c in s.conns
    ensures CalmStep(s, DoRemovePending(s, c), None, {})
  {
    hide CalmStep, Withdrawn;
    var k := s.conns[c];
    if k.pendingRoom.Some? && k.pendingRoom.value in s.rooms && k.id in s.rooms[k.pendingRoom.value].pending
       && s.rooms[k.pendingRoom.value].pending[k.id] == c
    {
      WithdrawCalm(s, c, k.pendingRoom.value, k.id);
    } else {
      CalmSame(s, DoRemovePending(s, c), None, {});
    }
  }

  lemma CancelCalm(s: State, c: ConnId, id: UserId)
    requires c in s.conns
    ensures CalmStep(s, DoCancel(s, c, id), None, {})
  {
    hide Calm;
    PendingCalm(s, c);
    var t := DoRemovePending(s, c);
    assert Ages(s.conns, DoCancel(s, c, id).conns);
    hide DoRemovePending;
    if s.conns[c].room.Some? { CalmSame(s, s, None, {}); }
  }

  lemma CreateCalm(s: State, c: ConnId, raw: Str, code: Code, ref: Ref, token: Token, now: Time)
    requires c in s.conns && ref !in s.rooms
    ensures CalmStep(s, DoCreate(s, c, raw, code, ref, token, now), None, {})
  {
    hide Sanitize;
    var t := DoCreate(s, c, raw, code, ref, token, now);
    forall x | Hosted(t, x) && x != ref ensures Registered(s, x) && Calm(s.rooms[x], t.rooms[x], x, {}) {
    }
  }

  lemma JoinCalm(s: State, c: ConnId, raw: Str, code: Code, news: set<(Ref, Work)>)
    requires c in s.conns && (code in s.registry && s.registry[code] in s.rooms ==> Registered(s, s.registry[code]))
    requires JoinHeard(s, c, raw, code) && JoinOk(s.rooms[s.registry[code]], s.conns[c].id) ==>
               (s.registry[code], JoinRequest(s.conns[c].id)) in news
    ensures CalmStep(s, DoJoin(s, c, raw, code), None, news)
  {
    hide Sanitize, JoinOk, CalmStep;
    var t := DoJoin(s, c, raw, code);
    if JoinHeard(s, c, raw, code) && JoinOk(s.rooms[s.registry[code]], s.conns[c].id) {
      CalmPut(s, t, s.registry[code], t.rooms[s.registry[code]], None, news);
    } else {
      CalmSame(s, t, None, news);
    }
  }

  lemma SuggestCalm(s: State, c: ConnId, id: SuggestionId, raw: Track, news: set<(Ref, Work)>)
    requires c in s.conns
    requires s.conns[c].room.Some? ==>
               (s.conns[c].room.value, SuggestionReceived(id)) in news || DoSuggest(s, c, id, raw) == s
    ensures CalmStep(s, DoSuggest(s, c, id, raw), None, news)
  {
    hide CleanTrack, SuggestOk, CalmStep;
    var t := DoSuggest(s, c, id, raw);
    if s.conns[c].room.Some? && s.conns[c].room.value in s.rooms && (s.conns[c].room.value, SuggestionReceived(id)) in news {
      CalmPut(s, t, s.conns[c].room.value, t.rooms[s.conns[c].room.value], None, news);
    } else {
      CalmSame(s, t, None, news);
    }
  }

  lemma AdmitCalm(s: State, j: ConnId, ref: Ref, key: UserId, token: Token)
    requires ref in s.rooms && j in s.conns && !Deserted(s.rooms[ref])
    ensures CalmStep(s, Admit(s, j, ref, key, token), None, {})
  {
    hide CalmStep;
    var t := Admit(s, j, ref, key, token);
    CalmPut(s, t, ref, t.rooms[ref], None, {});
  }

  lemma ApproveCalm(s: State, c: ConnId, key: UserId, token: Token)
    requires InRoom(s, c) && Active(s, c)
    ensures CalmStep(s, DoApprove(s, c, key, token), None, {})
  {
    hide CalmStep, Withdrawn, Admit, Admissible;
    var ref := s.conns[c].room.value;
    CalmSame(s, s, None, {});
    if Answers(s, c, key) {
      WithdrawCalm(s, s.rooms[ref].pending[key], ref, key);
      AdmitCalm(s, s.rooms[ref].pending[key], ref, key, token);
    }
  }

  lemma RejectCalm(s: State, c: ConnId, key: UserId)
    requires InRoom(s, c)
    ensures CalmStep(s, DoRejectJoin(s, c, key), None, {})
  {
    hide CalmStep, Withdrawn;
    CalmSame(s, s, None, {});
    if Answers(s, c, key) { WithdrawCalm(s, RoomOf(s, c).pending[key], s.conns[c].room.value, key); }
  }

  lemma KickedCalm(r: Room, u: UserId, ref: Ref)
    requires !Deserted(r)
    ensures Calm(r, Kicked(r, u), ref, {}) && Kicked(r, u).code == r.code
  {
    hide WithoutUser;
  }

  lemma KickCalm(s: State, c: ConnId, u: UserId)
    requires InRoom(s, c) && Active(s, c)
    ensures CalmStep(s, DoKick(s, c, u), None, {})
  {
    hide CalmStep, Calm, Kicked, Refs, TokensOf;
    var ref := s.conns[c].room.value;
    var t := DoKick(s, c, u);
    if KickOk(s, c, u) {
      KickedCalm(s.rooms[ref], u, ref);
      CalmPut(s, t, ref, Kicked(s.rooms[ref], u), None, {});
    } else {
      CalmSame(s, t, None, {});
    }
  }

  lemma TransferCalm(s: State, c: ConnId, u: UserId)
    requires InRoom(s, c)
    ensures CalmStep(s, DoTransfer(s, c, u), if TransferOk(s, c, u) then s.conns[c].room else None, {})
  {
    hide CalmStep, FlagHost, TransferOk;
    var ref := s.conns[c].room.value;
    var t := DoTransfer(s, c, u);
    if TransferOk(s, c, u) { CalmPut(s, t, ref, t.rooms[ref], Some(ref), {}); } else { CalmSame(s, t, None, {}); }
  }

  lemma ResolveCalm(s: State, ref: Ref, id: SuggestionId, n: Notice, p: Play, now: int)
    requires ref in s.rooms && id in s.rooms[ref].suggestions
    ensures CalmStep(s, PutRoom(s.(clock := now), ref, Resolved(s.rooms[ref], id, n).(play := p)), None, {})
  {
    hide CalmStep, Resolved;
    ResolvedFields(s.rooms[ref], id, n);
    var q := Resolved(s.rooms[ref], id, n).(play := p);
    CalmPut(s, PutRoom(s.(clock := now), ref, q), ref, q, None, {});
  }

  lemma ApprovalCalm(s: State, c: ConnId, id: SuggestionId, now: Time)
    requires InRoom(s, c)
    ensures CalmStep(s, DoApproveSuggestion(s, c, id, now), None, {})
  {
    hide CalmStep, Suggested, Resolved, Signed, PutRoom;
    CalmSame(s, s, None, {});
    var ref := s.conns[c].room.value;
    if Hosting(s, c) && id in s.rooms[ref].suggestions {
      var x := s.rooms[ref].suggestions[id];
      var track := x.track.(suggestedBy := x.authorName);
      ResolveCalm(s, ref, id, Approved(id, track), Suggested(s.rooms[ref].play, track, now).0, now);
      SignCalm(s, ref, id);
    }
  }

  lemma SignCalm(s: State, ref: Ref, id: SuggestionId)
    requires ref in s.rooms && id in s.rooms[ref].suggestions
    ensures CalmStep(s, PutRoom(s, ref, Signed(s.rooms[ref], id)), None, {})
  {
    hide CalmStep, Signed;
    SignedFields(s.rooms[ref], id);
    CalmPut(s, PutRoom(s, ref, Signed(s.rooms[ref], id)), ref, Signed(s.rooms[ref], id), None, {});
  }

  lemma RejectionCalm(s: State, c: ConnId, id: SuggestionId, reason: Str)
    requires c in s.conns
    ensures CalmStep(s, DoRejectSuggestion(s, c, id, reason), None, {})
  {
    hide CalmStep, Sanitize, Resolved, PutRoom;
    CalmSame(s, s, None, {});
    var k := s.conns[c];
    if k.room.Some? && k.room.value in s.rooms && id in s.rooms[k.room.value].suggestions {
      var r := s.rooms[k.room.value];
      var n := Rejected(id, Sanitize(reason, 200));
      ResolveCalm(s, k.room.value, id, n, r.play, s.clock);
      assert s.(clock := s.clock) == s;
      SamePlay(r, id, n);
    }
  }

  lemma ControlCalm(s: State, c: ConnId, m: Request, now: Time)
    requires InRoom(s, c)
    ensures CalmStep(s, DoControl(s, c, m, now), None, {})
  {
    hide CalmStep, Handle;
    var ref := s.conns[c].room.value;
    var t := DoControl(s, c, m, now);
    CalmPut(s, t, ref, t.rooms[ref], None, {});
  }

  lemma ConsumeCalm(s: State, c: ConnId, ref: Ref)
    requires c in s.attempts && ref in s.rooms
    ensures var t := DoConsume(s, c, ref);
            var seat := if Succeeds(s, c, ref) && TakesSeat(s.rooms[ref], t.conns, c, s.attempts[c].session.user) then Some(ref) else None;
            CalmStep(s, t, seat, {})
  {
    hide CalmStep, MarkUser, FlagHost;
    var t := DoConsume(s, c, ref);
    if Succeeds(s, c, ref) {
      CalmPut(s, t, ref, t.rooms[ref],
              if TakesSeat(s.rooms[ref], t.conns, c, s.attempts[c].session.user) then Some(ref) else None, {});
    } else {
      CalmSame(s, t, None, {});
    }
  }

  lemma ExpireCalm(s: State, x: Session, d: Option<ConnId>)
    requires x.code in s.registry && s.registry[x.code] in s.rooms && (d.Some? ==> d.value in s.conns)
    ensures var ref := s.registry[x.code];
            var seat := if x.user in s.rooms[ref].away && s.rooms[ref].hostId == Some(x.user) then Some(ref) else None;
            CalmStep(s, DoExpire(s, x, d), seat, {})
  {
    hide CalmStep, WithoutUser, FlagHost, Dead;
    var ref := s.registry[x.code];
    var t := DoExpire(s, x, d);
    if x.user in s.rooms[ref].away {
      CalmPut(s, t, ref, t.rooms[ref], if s.rooms[ref].hostId == Some(x.user) then Some(ref) else None, {});
    } else {
      CalmSame(s, t, None, {});
    }
  }

  lemma FailoverCalm(s: State, ref: Ref, now: Time, d: Option<ConnId>)
    requires ref in s.rooms && (d.Some? ==> d.value in s.conns)
    ensures CalmStep(s, DoFailover(s, ref, now, d), if FailoverDue(s.rooms[ref], now) && d.Some? then Some(ref) else None, {})
  {
    hide CalmStep, FlagHost, FailoverDue;
    var t := DoFailover(s, ref, now, d);
    if FailoverDue(s.rooms[ref], now) && d.Some? {
      CalmPut(s, t, ref, t.rooms[ref], Some(ref), {});
    } else {
      CalmSame(s, t, None, {});
    }
  }

  lemma EndCalm(s: State, t: State, ref: Ref)
    requires Registered(s, ref) && t.registry == s.registry - {s.rooms[ref].code} && ref in t.rooms
             && t.rooms[ref].code == s.rooms[ref].code
    requires t.rooms == s.rooms[ref := t.rooms[ref]] && Ages(s.conns, t.conns)
    ensures CalmStep(s, t, None, {})
  {
    forall x | Hosted(t, x) ensures Registered(s, x) && Calm(s.rooms[x], t.rooms[x], x, {}) {
      assert x != ref;
    }
  }

  lemma DeleteCalm(s: State, ref: Ref)
    requires ref in s.rooms
    ensures CalmStep(s, DoDelete(s, ref), None, {})
  {
    hide CalmStep;
    if Registered(s, ref) && Deserted(s.rooms[ref]) {
      EndCalm(s, DoDelete(s, ref), ref);
    } else {
      CalmSame(s, s, None, {});
    }
  }

  lemma CloseCalm(s: State, ref: Ref)
    requires Registered(s, ref)
    ensures CalmStep(s, DoCloseRoom(s, ref), None, {})
  {
    hide CalmStep, Refs;
    EndCalm(s, DoCloseRoom(s, ref), ref);
  }

  lemma ConnCalm(s: State, a: Step)
    requires Enabled(s, a) && (a.Connect? || a.Measure? || a.Close?)
    ensures CalmStep(s, GuestStep(s, a), None, {})
  {
    hide CalmStep;
    CalmSame(s, GuestStep(s, a), None, {});
  }

  lemma GuestCalm(s: State, a: Step)
    requires Inv(s) && Enabled(s, a) && FromGuest(a)
    ensures CalmStep(s, GuestStep(s, a), Assigns(s, a), News(s, a))
  {
    hide Inv, CalmStep, Deputy, Clock, DoCreate, DoJoin, DoRemovePending, DoCancel, DoLeave, DoDetach, DoSuggest,
      JoinHeard, JoinOk, SuggestOk, CleanTrack;
    match a
    case Connect(_, _, _) => ConnCalm(s, a);
    case Measure(_, _) => ConnCalm(s, a);
    case Close(_) => ConnCalm(s, a);
    case Create(c, raw, code, ref, token, now) => CreateCalm(s, c, raw, code, ref, token, now);
    case Join(c, raw, code) =>
      if code in s.registry && s.registry[code] in s.rooms { JoinTarget(s, code); }
      JoinCalm(s, c, raw, code, News(s, a));
    case RemovePending(c) => PendingCalm(s, c);
    case Cancel(c, id) => CancelCalm(s, c, id);
    case Leave(c, d) => LeaveCalm(s, c, d);
    case Detach(c, now, token) => DetachCalm(s, c, now, token);
    case Suggest(c, id, track) => SuggestIdle(s, c, id, track); SuggestCalm(s, c, id, track, News(s, a));
  }

  lemma SuggestIdle(s: State, c: ConnId, id: SuggestionId, raw: Track)
    requires c in s.conns
    ensures DoSuggest(s, c, id, raw) == s ||
            (s.conns[c].room.Some? && s.conns[c].room.value in s.rooms && CleanTrack(raw).Some? && SuggestOk(s, c, CleanTrack(raw).value))
  {
    hide CleanTrack, SuggestOk;
  }

  lemma HostCalm(s: State, a: Step)
    requires Inv(s) && Enabled(s, a) && FromHost(a)
    ensures CalmStep(s, HostStep(s, a), Assigns(s, a), News(s, a))
  {
    hide Inv, CalmStep, DoApprove, DoRejectJoin, DoKick, DoTransfer, DoApproveSuggestion, DoRejectSuggestion, DoControl;
    match a
    case Approve(c, key, token) => ActiveAlways(s, c); ApproveCalm(s, c, key, token);
    case RejectJoin(c, key) => RejectCalm(s, c, key);
    case Kick(c, u) => ActiveAlways(s, c); KickCalm(s, c, u);
    case Transfer(c, u) => TransferCalm(s, c, u);
    case ApproveSuggestion(c, id, now) => ApprovalCalm(s, c, id, now);
    case RejectSuggestion(c, id, reason) => RejectionCalm(s, c, id, reason);
    case Control(c, m, now) => ControlCalm(s, c, m, now);
  }

  lemma TokenCalm(s: State, a: Step)
    requires Enabled(s, a) && (a.Claim? || a.Lookup? || a.DropToken? || a.Release? || a.Take? || a.ExpireStale?)
    ensures CalmStep(s, ServerStep(s, a), None, {})
  {
    hide CalmStep, Refs, ExpiredTokens, ClaimOk;
    CalmSame(s, ServerStep(s, a), None, {});
  }

  lemma ServerCalm(s: State, a: Step)
    requires Inv(s) && Enabled(s, a) && !FromGuest(a) && !FromHost(a)
    ensures CalmStep(s, ServerStep(s, a), Assigns(s, a), News(s, a))
  {
    hide Inv, CalmStep, Deputy, DoClaim, DoLookup, DoRelease, DoTake, Revoke, DoConsume, DoExpire, DoFailover, DoDelete,
      DoCloseRoom,
      Succeeds, TakesSeat, FailoverDue;
    match a
    case Consume(c, ref) => ConsumeCalm(s, c, ref);
    case Expire(x, d) => ExpireCalm(s, x, d);
    case Failover(ref, now, d) => FailoverCalm(s, ref, now, d);
    case Delete(ref) => DeleteCalm(s, ref);
    case CloseRoom(ref) => InvCloses(s, a); CloseCalm(s, ref);
    case _ => TokenCalm(s, a);
  }

  lemma StepCalm(s: State, a: Step)
    requires Inv(s) && Enabled(s, a)
    ensures CalmStep(s, Next(s, a), Assigns(s, a), News(s, a))
  {
    hide Inv, Enabled, CalmStep, GuestStep, HostStep, ServerStep, Assigns, News;
    if FromGuest(a) { GuestCalm(s, a); } else if FromHost(a) { HostCalm(s, a); } else { ServerCalm(s, a); }
  }

  // ---- the inbox stays complete ----

  /** Work found in a calm room was there before, or is news. */
  lemma CalmWork(s: State, t: State, ref: Ref, w: Work, news: set<(Ref, Work)>)
    requires Linking(s) && Ages(s.conns, t.conns) && ref in s.rooms && ref in t.rooms
    requires Calm(s.rooms[ref], t.rooms[ref], ref, news) && w in HostWork(t.rooms[ref], t.conns)
    ensures w in HostWork(s.rooms[ref], s.conns) || (ref, w) in news
  {
    hide Linked, BackLinked, OneHome, Known, Deserted;
  }

  /** News of a hosted room is told to its host. */
  lemma NewsIsTold(s: State, ref: Ref, w: Work)
    requires Inv(s) && Hosted(s, ref)
    ensures Errand(ref, s.rooms[ref].host.value, w) in Tell(s, ref, w)
  {
    hide RegInv, LinkInv, ClosingInv, TokensOk, Roster, MailInv;
    assert RoomInv(s.rooms[ref], s.conns);
  }

  lemma WorkIsKept(s: State, a: Step, ref: Ref, w: Work, desk: Desk)
    requires Inv(s) && Enabled(s, a) && Covers(s, desk)
    requires var t := Next(s, a); Hosted(t, ref) && Assigns(s, a) != Some(ref) && w in HostWork(t.rooms[ref], t.conns)
    ensures var t := Next(s, a);
            && SameHost(s, t, ref)
            && var e := Errand(ref, t.rooms[ref].host.value, w);
               (((ref, w) in desk.told || e in desk.errands) && w in HostWork(s.rooms[ref], s.conns))
               || e in Sends(s, a)
  {
    hide Inv, Enabled, Next, Assigns, News, Tell, Calm, HostWork;
    var t := Next(s, a);
    StepCalm(s, a);
    assert !(t.rooms[ref].pending == map[] && t.rooms[ref].suggestions == map[]) by {
      EmptyWork(t.rooms[ref], t.conns);
    }
    assert Registered(s, ref) && Calm(s.rooms[ref], t.rooms[ref], ref, News(s, a));
    CalmHost(s.rooms[ref], t.rooms[ref], ref, News(s, a));
    InvLinking(s);
    CalmWork(s, t, ref, w, News(s, a));
    NewsIsTold(s, ref, w);
    if w !in HostWork(s.rooms[ref], s.conns) {
      var n := (ref, w);
      assert n in News(s, a) && Errand(ref, s.rooms[ref].host.value, w) in Tell(s, n.0, n.1);
      assert Errand(ref, s.rooms[ref].host.value, w) in Sends(s, a);
    }
  }

  lemma EmptyWork(r: Room, conns: Conns)
    ensures r.pending == map[] && r.suggestions == map[] ==> HostWork(r, conns) == {}
  {
  }

  lemma CalmHost(r: Room, q: Room, ref: Ref, news: set<(Ref, Work)>)
    requires Calm(r, q, ref, news)
    ensures q.host == r.host && (!Deserted(q) ==> !Deserted(r))
  {
  }

  lemma AssignedIsReplayed(s: State, a: Step, ref: Ref, w: Work)
    requires Enabled(s, a) && Assigns(s, a) == Some(ref)
    requires var t := Next(s, a); Hosted(t, ref) && w in HostWork(t.rooms[ref], t.conns)
    ensures Errand(ref, Next(s, a).rooms[ref].host.value, w) in Sends(s, a)
  {
    hide Enabled, Next, Assigns, News, Tell, HostWork;
    assert Errand(ref, Next(s, a).rooms[ref].host.value, w) in Replay(Next(s, a), ref);
  }

  lemma ActKeepsInbox(s: State, desk: Desk, a: Step)
    requires Inv(s) && Enabled(s, a) && Proper(s, a) && Complete(s, desk)
    ensures Complete(Moved(s, desk, Act(a)).0, Moved(s, desk, Act(a)).1)
  {
    hide Inv, Enabled, Proper, Next, Assigns, Sends, HostWork, Complete;
    var t := Next(s, a);
    var desk' := Moved(s, desk, Act(a)).1;
    CompleteIffCovers(s, desk);
    CompleteIffCovers(t, desk');
    forall ref, w | Hosted(t, ref) && w in HostWork(t.rooms[ref], t.conns)
      ensures Informed(desk', ref, t.rooms[ref].host.value, w)
    {
      if Assigns(s, a) == Some(ref) {
        AssignedIsReplayed(s, a, ref, w);
      } else {
        WorkIsKept(s, a, ref, w, desk);
        assert (ref, w).0 == ref;
      }
    }
  }

  lemma MoveKeepsInbox(s: State, desk: Desk, m: Move)
    requires Inv(s) && CanMove(s, desk, m) && Complete(s, desk)
    ensures var (t, desk') := Moved(s, desk, m); Inv(t) && Complete(t, desk')
  {
    hide Inv, Enabled, Proper, Next, Sends, HostWork;
    match m
    case Act(a) => StepKeeps(s, a); ActKeepsInbox(s, desk, a);
    case Deliver(e) =>
  }

  ghost predicate Playable(s: State, desk: Desk, run: seq<Move>)
    decreases |run|
  {
    run != [] ==> CanMove(s, desk, run[0]) && var (t, desk') := Moved(s, desk, run[0]); Playable(t, desk', run[1..])
  }

  ghost function Played(s: State, desk: Desk, run: seq<Move>): (State, Desk)
    requires Playable(s, desk, run)
    decreases |run|
  {
    if run == [] then (s, desk) else var (t, desk') := Moved(s, desk, run[0]); Played(t, desk', run[1..])
  }

  /** Inbox completeness over every run of steps and deliveries: whatever waits
      for the host's decision was sent to the connection now in the seat since it
      took the seat, or is on its way there. */
  lemma {:induction false} InboxComplete(s: State, desk: Desk, run: seq<Move>)
    requires Inv(s) && Complete(s, desk) && Playable(s, desk, run)
    ensures var (t, desk') := Played(s, desk, run); Inv(t) && Complete(t, desk')
    decreases |run|
  {
    hide Inv, CanMove, Moved, Complete;
    if run != [] {
      MoveKeepsInbox(s, desk, run[0]);
      var (t, desk') := Moved(s, desk, run[0]);
      InboxComplete(t, desk', run[1..]);
    }
  }

  // ---- every life of the server ----

  ghost predicate Unhosted(s: State) { forall ref :: ref in s.rooms ==> s.rooms[ref].host.None? }

  lemma {:induction false} LivesStartUnhosted(s: State, es: seq<Epoch>)
    requires Unhosted(s) && Endures(s, es)
    ensures Unhosted(Latest(s, es))
    decreases |es|
  {
    hide CanLoad, Recoverable, RestoredAway, KeptUsers, RestoredPlay, RestoredStamp, Filed, After;
    if es != [] { LivesStartUnhosted(Rebooted(s, es[0]), es[1..]); }
  }

  /** So the host of any room of any life of the server always hears of everything
      that waits for their decision. */
  lemma InboxAlwaysComplete(es: seq<Epoch>, run: seq<Move>)
    requires Endures(Empty, es) && Playable(Latest(Empty, es), Desk({}, {}), run)
    ensures var (t, desk) := Played(Latest(Empty, es), Desk({}, {}), run); Complete(t, desk)
  {
    hide Inv, Endures, Latest, Playable, Played, HostWork, Regular;
    var s := Latest(Empty, es);
    EmptyIsSound();
    assert Regular(s, []) by { NoRun(s); }
    RestartsKeep(Empty, es, []);
    LivesStartUnhosted(Empty, es);
    InboxComplete(s, Desk({}, {}), run);
  }
}
