/**
 Reserved seats and what is kept with them: a seat, its time and the notices
 stored for it stay as they are, step by step and over whole runs, until the
 member returns, is kicked or expires.
 */
module Seats {
  import opened Base
  import opened Text
  import opened Tracks
  import opened Playback
  import opened Rooms
  import opened Links
  import opened Lobby
  import opened LobbyRooms
  import opened Tokens
  import opened LobbyRuns
  import opened LobbyTimers
  import opened Runs

  /** The step ends u's reserved seat in ref: u returns, is kicked, or expires. */
  ghost predicate Dismisses(s: State, a: Step, ref: Ref, u: UserId)
  {
    match a
    case Consume(c, x) =>
      x == ref && c in s.attempts && ref in s.rooms && Succeeds(s, c, ref) && s.attempts[c].session.user == u
    case Kick(c, v) => v == u && InRoom(s, c) && s.conns[c].room == Some(ref) && KickOk(s, c, u)
    case Expire(x, _) => x.user == u && x.code in s.registry && s.registry[x.code] == ref
    case _ => false
  }

  /** Seats that stay are unchanged, and their notices only grow. */
  predicate SeatsStay(r: Room, q: Room)
  {
    forall u :: u in r.away && u in q.away ==>
      q.away[u] == r.away[u] && NoticesIn(r.notices, u) <= NoticesIn(q.notices, u)
  }

  /** A host who stays away has been away since the same moment. */
  predicate StampStays(r: Room, q: Room) { r.hostAway.Some? && q.hostAway.Some? ==> q.hostAway == r.hostAway }

  ghost predicate Lasts(s: State, a: Step, t: State)
  {
    forall ref :: ref in s.rooms ==>
      && ref in t.rooms && SeatsStay(s.rooms[ref], t.rooms[ref]) && StampStays(s.rooms[ref], t.rooms[ref])
      && forall u :: u in s.rooms[ref].away && u !in t.rooms[ref].away ==> Dismisses(s, a, ref, u)
  }

  lemma LastsPut(s: State, a: Step, t: State, ref: Ref, q: Room)
    requires ref in s.rooms && t.rooms == s.rooms[ref := q] && SeatsStay(s.rooms[ref], q) && StampStays(s.rooms[ref], q)
    requires forall u :: u in s.rooms[ref].away && u !in q.away ==> Dismisses(s, a, ref, u)
    ensures Lasts(s, a, t)
  {
    hide Dismisses;
  }

  /** Rooms come at most, and none changes in a way that concerns its seats. */
  lemma LastsEach(s: State, a: Step, t: State)
    requires forall ref :: ref in s.rooms ==> ref in t.rooms && Unmoved(s.rooms[ref], t.rooms[ref])
    ensures Lasts(s, a, t)
  {
    hide Dismisses;
  }

  predicate Unmoved(r: Room, q: Room) { q.away == r.away && q.notices == r.notices && q.hostAway == r.hostAway }

  // ---- room by room ----

  lemma ForgetStays(r: Room, q: Room, u: UserId)
    requires q.away == r.away - {u} && q.notices == r.notices - {u} && (q.hostAway == r.hostAway || q.hostAway.None?)
    ensures SeatsStay(r, q) && StampStays(r, q) && forall v :: v in r.away && v !in q.away ==> v == u
  {
  }

  lemma LeftStays(r: Room, conns: Conns, c: ConnId, u: UserId, d: Option<ConnId>)
    requires d.Some? ==> d.value in conns
    ensures var q := Left(r, conns, c, u, d);
            q.away == r.away - {u} && q.notices == r.notices - {u} && (q.hostAway == r.hostAway || q.hostAway.None?)
  {
    hide WithoutUser, Unsuggest, FlagHost;
  }

  lemma ExpiredStays(r: Room, conns: Conns, u: UserId, d: Option<ConnId>)
    requires d.Some? ==> d.value in conns
    ensures var q := Expired(r, conns, u, d);
            q.away == r.away - {u} && q.notices == r.notices - {u} && (q.hostAway == r.hostAway || q.hostAway.None?)
  {
    hide WithoutUser, Unsuggest, FlagHost;
  }

  lemma KickedStays(r: Room, u: UserId)
    requires u in r.clients ==> u !in r.away
    ensures var q := Kicked(r, u); q.away == r.away - {u} && q.notices == r.notices - {u} && q.hostAway == r.hostAway
  {
    hide WithoutUser, Unsuggest;
    if u in r.clients { NothingToDrop(r.away, u); }
  }

  lemma RejoinedStays(r: Room, conns: Conns, c: ConnId, u: UserId)
    requires c in conns
    ensures var q := Rejoined(r, conns, c, u);
            q.away == r.away - {u} && q.notices == r.notices - {u} && (q.hostAway == r.hostAway || q.hostAway.None?)
  {
    hide MarkUser, FlagHost;
  }

  lemma DisconnectedStays(r: Room, c: ConnId, u: UserId, name: Str, now: Time)
    requires u !in r.away && (r.host == Some(c) ==> r.hostAway.None?)
    ensures var q := Disconnected(r, c, u, name, now);
            SeatsStay(r, q) && StampStays(r, q) && forall v :: v in r.away ==> v in q.away
  {
    hide MarkUser;
  }

  lemma SeatedStays(r: Room, conns: Conns, c: ConnId)
    requires c in conns
    ensures var q := Transferred(r, conns, c);
            SeatsStay(r, q) && StampStays(r, q) && forall v :: v in r.away ==> v in q.away
    ensures var q := FailedOver(r, conns, c);
            SeatsStay(r, q) && StampStays(r, q) && forall v :: v in r.away ==> v in q.away
  {
    hide FlagHost;
  }

  lemma ResolvedStays(r: Room, id: SuggestionId, n: Notice, p: Play)
    requires id in r.suggestions
    ensures var q := Resolved(r, id, n).(play := p);
            SeatsStay(r, q) && StampStays(r, q) && forall v :: v in r.away ==> v in q.away
  {
  }

  // ---- step by step ----

  /** What the invariant says of an active member's seat and of the host's stamp. */
  lemma SignedStays(r: Room, id: SuggestionId)
    requires id in r.suggestions
    ensures SeatsStay(r, Signed(r, id)) && StampStays(r, Signed(r, id)) && Signed(r, id).away == r.away
  {
  }

  lemma ActiveUnstamped(s: State, c: ConnId)
    requires Inv(s) && InRoom(s, c)
    ensures var r := RoomOf(s, c);
            Active(s, c) && s.conns[c].id !in r.away && (r.host == Some(c) ==> r.hostAway.None?)
  {
    hide Inv, Roster, HostInv, MailInv, RoomInv;
    ActiveAlways(s, c);
    SidesApart(s, s.conns[c].room.value);
    HostUnstamped(s, s.conns[c].room.value);
  }

  lemma HostUnstamped(s: State, ref: Ref)
    requires Inv(s) && Registered(s, ref) && !Deserted(s.rooms[ref])
    ensures s.rooms[ref].host.Some? ==> s.rooms[ref].hostAway.None?
  {
    hide RegInv, LinkInv, ClosingInv, TokensOk, Roster, MailInv;
    assert RoomInv(s.rooms[ref], s.conns);
  }

  lemma CreateLasts(s: State, a: Step, c: ConnId, raw: Str, code: Code, ref: Ref, token: Token, now: int)
    requires c in s.conns && ref !in s.rooms
    ensures Lasts(s, a, DoCreate(s, c, raw, code, ref, token, now))
  {
    hide Sanitize, CreateOk, Lasts, Opened;
    LastsEach(s, a, DoCreate(s, c, raw, code, ref, token, now));
  }

  lemma JoinLasts(s: State, a: Step, c: ConnId, raw: Str, code: Code)
    requires c in s.conns
    ensures Lasts(s, a, DoJoin(s, c, raw, code))
  {
    hide Sanitize, JoinOk, Lasts;
    LastsEach(s, a, DoJoin(s, c, raw, code));
  }

  lemma PendingLasts(s: State, a: Step, c: ConnId)
    requires c in s.conns
    ensures Lasts(s, a, DoRemovePending(s, c))
  {
    hide Lasts;
    LastsEach(s, a, DoRemovePending(s, c));
  }

  lemma CancelLasts(s: State, a: Step, c: ConnId, id: UserId)
    requires c in s.conns
    ensures Lasts(s, a, DoCancel(s, c, id))
  {
    hide Lasts;
    LastsEach(s, a, DoCancel(s, c, id));
  }

  lemma LeaveLasts(s: State, a: Step, c: ConnId, d: Option<ConnId>)
    requires Inv(s) && InRoom(s, c) && (d.Some? ==> d.value in s.conns)
    ensures Lasts(s, a, DoLeave(s, c, d))
  {
    hide Inv, Left, Refs, Dead, Lasts, SeatsStay, StampStays, Dismisses;
    ActiveUnstamped(s, c);
    var ref := s.conns[c].room.value;
    var t := DoLeave(s, c, d);
    LeftStays(s.rooms[ref], s.conns, c, s.conns[c].id, d);
    ForgetStays(s.rooms[ref], t.rooms[ref], s.conns[c].id);
    LastsPut(s, a, t, ref, t.rooms[ref]);
  }

  lemma DetachLasts(s: State, a: Step, c: ConnId, now: Time, token: Token)
    requires Inv(s) && InRoom(s, c)
    ensures Lasts(s, a, DoDetach(s, c, now, token))
  {
    hide Inv, Disconnected, Lasts, SeatsStay, StampStays, Dismisses;
    ActiveUnstamped(s, c);
    var ref := s.conns[c].room.value;
    var t := DoDetach(s, c, now, token);
    DisconnectedStays(s.rooms[ref], c, s.conns[c].id, s.conns[c].name, now);
    LastsPut(s, a, t, ref, t.rooms[ref]);
  }

  lemma SuggestLasts(s: State, a: Step, c: ConnId, id: SuggestionId, track: Track)
    requires c in s.conns
    ensures Lasts(s, a, DoSuggest(s, c, id, track))
  {
    hide CleanTrack, SuggestOk, Lasts;
    LastsEach(s, a, DoSuggest(s, c, id, track));
  }

  lemma ConnLasts(s: State, a: Step)
    requires Enabled(s, a) && (a.Connect? || a.Measure? || a.Close?)
    ensures Lasts(s, a, GuestStep(s, a))
  {
    hide Lasts;
    LastsEach(s, a, GuestStep(s, a));
  }

  lemma GuestLasts(s: State, a: Step)
    requires Inv(s) && Enabled(s, a) && FromGuest(a)
    ensures Lasts(s, a, GuestStep(s, a))
  {
    hide Inv, Deputy, Clock, DoCreate, DoJoin, DoRemovePending, DoCancel, DoLeave, DoDetach, DoSuggest, Lasts;
    match a
    case Connect(_, _, _) => ConnLasts(s, a);
    case Measure(_, _) => ConnLasts(s, a);
    case Close(_) => ConnLasts(s, a);
    case Create(c, raw, code, x, token, now) => CreateLasts(s, a, c, raw, code, x, token, now);
    case Join(c, raw, code) => JoinLasts(s, a, c, raw, code);
    case RemovePending(c) => PendingLasts(s, a, c);
    case Cancel(c, id) => CancelLasts(s, a, c, id);
    case Leave(c, d) => LeaveLasts(s, a, c, d);
    case Detach(c, now, token) => DetachLasts(s, a, c, now, token);
    case Suggest(c, id, track) => SuggestLasts(s, a, c, id, track);
  }

  lemma WithdrawLasts(s: State, a: Step, c: ConnId, ref: Ref, key: UserId)
    requires ref in s.rooms
    ensures Lasts(s, a, Withdrawn(s, c, ref, key))
  {
    hide Lasts;
    LastsEach(s, a, Withdrawn(s, c, ref, key));
  }

  lemma AdmitLasts(s: State, a: Step, j: ConnId, ref: Ref, key: UserId, token: Token)
    requires j in s.conns && ref in s.rooms
    ensures Lasts(s, a, Admit(s, j, ref, key, token))
  {
    hide Lasts;
    LastsEach(s, a, Admit(s, j, ref, key, token));
  }

  lemma AnswerLasts(s: State, a: Step, c: ConnId, key: UserId, token: Token)
    requires InRoom(s, c)
    ensures Lasts(s, a, DoApprove(s, c, key, token)) && Lasts(s, a, DoRejectJoin(s, c, key))
  {
    hide Lasts, Withdrawn, Admit, Hosting;
    LastsEach(s, a, s);
    if Answers(s, c, key) {
      WithdrawLasts(s, a, RoomOf(s, c).pending[key], s.conns[c].room.value, key);
      AdmitLasts(s, a, RoomOf(s, c).pending[key], s.conns[c].room.value, key, token);
    }
  }

  lemma KickLasts(s: State, c: ConnId, u: UserId)
    requires Inv(s) && InRoom(s, c)
    ensures Lasts(s, Kick(c, u), DoKick(s, c, u))
  {
    hide Inv, Kicked, Refs, TokensOf, Lasts, SeatsStay, StampStays;
    var t := DoKick(s, c, u);
    if KickOk(s, c, u) {
      var ref := s.conns[c].room.value;
      ActiveAlways(s, c);
      SidesApart(s, ref);
      KickedStays(s.rooms[ref], u);
      ForgetStays(s.rooms[ref], t.rooms[ref], u);
      LastsPut(s, Kick(c, u), t, ref, t.rooms[ref]);
    } else {
      LastsEach(s, Kick(c, u), t);
    }
  }

  lemma TransferLasts(s: State, a: Step, c: ConnId, u: UserId)
    requires InRoom(s, c)
    ensures Lasts(s, a, DoTransfer(s, c, u))
  {
    hide Transferred, Lasts, SeatsStay, StampStays, Dismisses;
    var t := DoTransfer(s, c, u);
    if TransferOk(s, c, u) {
      SeatedStays(RoomOf(s, c), s.conns, RoomOf(s, c).clients[u]);
      LastsPut(s, a, t, s.conns[c].room.value, t.rooms[s.conns[c].room.value]);
    } else {
      LastsEach(s, a, t);
    }
  }

  lemma ApprovalLasts(s: State, a: Step, c: ConnId, id: SuggestionId, now: int)
    requires InRoom(s, c)
    ensures Lasts(s, a, DoApproveSuggestion(s, c, id, now))
  {
    hide Suggested, Resolved, Signed, Lasts, SeatsStay, StampStays, Dismisses;
    var t := DoApproveSuggestion(s, c, id, now);
    if t == s {
      LastsEach(s, a, t);
    } else {
      var ref := s.conns[c].room.value;
      var x := s.rooms[ref].suggestions[id];
      var track := x.track.(suggestedBy := x.authorName);
      ResolvedStays(s.rooms[ref], id, Approved(id, track), Suggested(s.rooms[ref].play, track, now).0);
      SignedStays(s.rooms[ref], id);
      LastsPut(s, a, t, ref, t.rooms[ref]);
    }
  }

  lemma RejectionLasts(s: State, a: Step, c: ConnId, id: SuggestionId, reason: Str)
    requires c in s.conns
    ensures Lasts(s, a, DoRejectSuggestion(s, c, id, reason))
  {
    hide Resolved, Sanitize, Lasts, SeatsStay, StampStays, Dismisses;
    var t := DoRejectSuggestion(s, c, id, reason);
    if t == s {
      LastsEach(s, a, t);
    } else {
      var ref := s.conns[c].room.value;
      var n := Rejected(id, Sanitize(reason, 200));
      ResolvedStays(s.rooms[ref], id, n, s.rooms[ref].play);
      SamePlay(s.rooms[ref], id, n);
      LastsPut(s, a, t, ref, t.rooms[ref]);
    }
  }

  lemma ControlLasts(s: State, a: Step, c: ConnId, m: Request, now: int)
    requires InRoom(s, c)
    ensures Lasts(s, a, DoControl(s, c, m, now))
  {
    hide Handle, Lasts;
    LastsEach(s, a, DoControl(s, c, m, now));
  }

  lemma HostLasts(s: State, a: Step)
    requires Inv(s) && Enabled(s, a) && FromHost(a)
    ensures Lasts(s, a, HostStep(s, a))
  {
    hide Inv, Clock, DoApprove, DoRejectJoin, DoKick, DoTransfer, DoApproveSuggestion, DoRejectSuggestion, DoControl,
      Lasts;
    match a
    case Approve(c, key, token) => AnswerLasts(s, a, c, key, token);
    case RejectJoin(c, key) => AnswerLasts(s, a, c, key, []);
    case Kick(c, u) => KickLasts(s, c, u);
    case Transfer(c, u) => TransferLasts(s, a, c, u);
    case ApproveSuggestion(c, id, now) => ApprovalLasts(s, a, c, id, now);
    case RejectSuggestion(c, id, reason) => RejectionLasts(s, a, c, id, reason);
    case Control(c, m, now) => ControlLasts(s, a, c, m, now);
  }

  lemma ConsumeLasts(s: State, c: ConnId, ref: Ref)
    requires c in s.attempts && ref in s.rooms
    ensures Lasts(s, Consume(c, ref), DoConsume(s, c, ref))
  {
    hide Rejoined, Lasts, SeatsStay, StampStays;
    var t := DoConsume(s, c, ref);
    var u := s.attempts[c].session.user;
    if Succeeds(s, c, ref) {
      RejoinedStays(s.rooms[ref], t.conns, c, u);
      ForgetStays(s.rooms[ref], t.rooms[ref], u);
      LastsPut(s, Consume(c, ref), t, ref, t.rooms[ref]);
    } else {
      LastsEach(s, Consume(c, ref), t);
    }
  }

  lemma ExpireLasts(s: State, x: Session, d: Option<ConnId>)
    requires x.code in s.registry && s.registry[x.code] in s.rooms && (d.Some? ==> d.value in s.conns)
    ensures Lasts(s, Expire(x, d), DoExpire(s, x, d))
  {
    hide Expired, Dead, Lasts, SeatsStay, StampStays;
    var ref := s.registry[x.code];
    var t := DoExpire(s, x, d);
    if x.user in s.rooms[ref].away {
      ExpiredStays(s.rooms[ref], s.conns, x.user, d);
      ForgetStays(s.rooms[ref], t.rooms[ref], x.user);
      LastsPut(s, Expire(x, d), t, ref, t.rooms[ref]);
    } else {
      LastsEach(s, Expire(x, d), t);
    }
  }

  lemma FailoverLasts(s: State, a: Step, ref: Ref, now: Time, d: Option<ConnId>)
    requires ref in s.rooms && (d.Some? ==> d.value in s.conns)
    ensures Lasts(s, a, DoFailover(s, ref, now, d))
  {
    hide FailedOver, FailoverDue, Lasts, SeatsStay, StampStays, Dismisses;
    var t := DoFailover(s, ref, now, d);
    if d.Some? && FailoverDue(s.rooms[ref], now) {
      SeatedStays(s.rooms[ref], s.conns, d.value);
      LastsPut(s, a, t, ref, t.rooms[ref]);
    } else {
      LastsEach(s, a, t);
    }
  }

  lemma DeleteLasts(s: State, a: Step, ref: Ref)
    requires ref in s.rooms
    ensures Lasts(s, a, DoDelete(s, ref))
  {
    hide ReleaseAll, Lasts;
    LastsEach(s, a, DoDelete(s, ref));
  }

  /** A room is only closed when no seat is reserved in it. */
  lemma CloseLasts(s: State, a: Step, ref: Ref)
    requires Inv(s) && ref in s.closing && ref in s.rooms
    ensures Lasts(s, a, DoCloseRoom(s, ref))
  {
    hide Inv, ReleaseAll, Refs, Registered, Lasts;
    ClosingIsDead(s, ref);
    var t := DoCloseRoom(s, ref);
    LastsPut(s, a, t, ref, t.rooms[ref]);
  }

  lemma ClosingIsDead(s: State, ref: Ref)
    requires Inv(s) && ref in s.closing
    ensures ref in s.rooms && Dead(s.rooms[ref])
  {
    hide RoomsOk, TokensOk, Dead;
  }

  lemma TokenStepLasts(s: State, a: Step)
    requires Enabled(s, a) && (a.Claim? || a.Lookup? || a.DropToken? || a.Release? || a.Take? || a.ExpireStale?)
    ensures Lasts(s, a, ServerStep(s, a))
  {
    hide Refs, ExpiredTokens, ClaimOk, Lasts;
    LastsEach(s, a, ServerStep(s, a));
  }

  lemma ServerLasts(s: State, a: Step)
    requires Inv(s) && Enabled(s, a) && !FromGuest(a) && !FromHost(a)
    ensures Lasts(s, a, ServerStep(s, a))
  {
    hide Inv, Deputy, DoClaim, DoLookup, DoRelease, DoTake, Revoke, DoConsume, DoExpire, DoFailover, DoDelete,
      DoCloseRoom, Lasts;
    match a
    case Consume(c, ref) => ConsumeLasts(s, c, ref);
    case Expire(x, d) => ExpireLasts(s, x, d);
    case Failover(ref, now, d) => FailoverLasts(s, a, ref, now, d);
    case Delete(ref) => DeleteLasts(s, a, ref);
    case CloseRoom(ref) => CloseLasts(s, a, ref);
    case _ => TokenStepLasts(s, a);
  }

  lemma StepLasts(s: State, a: Step)
    requires Inv(s) && Enabled(s, a)
    ensures Lasts(s, a, Next(s, a))
  {
    hide Inv, Enabled, Lasts, GuestStep, HostStep, ServerStep;
    if FromGuest(a) { GuestLasts(s, a); } else if FromHost(a) { HostLasts(s, a); } else { ServerLasts(s, a); }
  }

  // ---- when a seat goes ----

  lemma KickDismisses(s: State, c: ConnId, u: UserId)
    requires Inv(s) && InRoom(s, c) && KickOk(s, c, u)
    ensures s.conns[c].room.value in DoKick(s, c, u).rooms && u !in DoKick(s, c, u).rooms[s.conns[c].room.value].away
  {
    hide Inv, Kicked, Refs, TokensOf;
    ActiveAlways(s, c);
    SidesApart(s, s.conns[c].room.value);
    KickedStays(s.rooms[s.conns[c].room.value], u);
  }

  lemma ConsumeDismisses(s: State, c: ConnId, ref: Ref)
    requires c in s.attempts && ref in s.rooms && Succeeds(s, c, ref)
    ensures ref in DoConsume(s, c, ref).rooms && s.attempts[c].session.user !in DoConsume(s, c, ref).rooms[ref].away
  {
    hide Rejoined;
    RejoinedStays(s.rooms[ref], DoConsume(s, c, ref).conns, c, s.attempts[c].session.user);
  }

  lemma ExpireDismisses(s: State, x: Session, d: Option<ConnId>)
    requires x.code in s.registry && s.registry[x.code] in s.rooms && (d.Some? ==> d.value in s.conns)
    ensures s.registry[x.code] in DoExpire(s, x, d).rooms && x.user !in DoExpire(s, x, d).rooms[s.registry[x.code]].away
  {
    hide Expired, Dead;
    ExpiredStays(s.rooms[s.registry[x.code]], s.conns, x.user, d);
  }

  lemma DismissedIsGone(s: State, a: Step, ref: Ref, u: UserId)
    requires Inv(s) && Enabled(s, a) && Dismisses(s, a, ref, u)
    ensures ref in Next(s, a).rooms && u !in Next(s, a).rooms[ref].away
  {
    hide Inv, Deputy, DoKick, DoConsume, DoExpire, Succeeds, KickOk;
    if a.Kick? {
      KickDismisses(s, a.c, u);
    } else if a.Consume? {
      ConsumeDismisses(s, a.c, ref);
    } else {
      ExpireDismisses(s, a.x, a.deputy);
    }
  }

  /** A reserved seat survives a step if and only if the step does not return, kick
      or expire its member; a seat that survives keeps its time and its notices. */
  lemma SeatStaysIff(s: State, a: Step, ref: Ref, u: UserId)
    requires Inv(s) && Enabled(s, a) && ref in s.rooms && u in s.rooms[ref].away
    ensures var t := Next(s, a);
            && ref in t.rooms && (u in t.rooms[ref].away <==> !Dismisses(s, a, ref, u))
            && (u in t.rooms[ref].away ==>
                  && t.rooms[ref].away[u] == s.rooms[ref].away[u]
                  && NoticesIn(s.rooms[ref].notices, u) <= NoticesIn(t.rooms[ref].notices, u))
  {
    hide Inv, Enabled, Next, Dismisses;
    StepLasts(s, a);
    if Dismisses(s, a, ref, u) { DismissedIsGone(s, a, ref, u); }
  }

  // ---- whole runs ----

  ghost predicate Undismissed(s: State, run: seq<Step>, ref: Ref, u: UserId)
    decreases |run|
  {
    run != [] && Enabled(s, run[0]) ==> !Dismisses(s, run[0], ref, u) && Undismissed(Next(s, run[0]), run[1..], ref, u)
  }

  /** Over every run that does not end the seat: the same seat, the same time, and
      every notice stored for it, with new ones behind. */
  lemma {:induction false} SeatStays(s: State, run: seq<Step>, ref: Ref, u: UserId)
    requires Inv(s) && Regular(s, run) && ref in s.rooms && u in s.rooms[ref].away && Undismissed(s, run, ref, u)
    ensures var t := After(s, run);
            && ref in t.rooms && u in t.rooms[ref].away && t.rooms[ref].away[u] == s.rooms[ref].away[u]
            && NoticesIn(s.rooms[ref].notices, u) <= NoticesIn(t.rooms[ref].notices, u)
    decreases |run|
  {
    hide Inv, Enabled, Proper, Next, Dismisses, NoticesIn;
    if run != [] {
      StepKeeps(s, run[0]);
      SeatStaysIff(s, run[0], ref, u);
      SeatStays(Next(s, run[0]), run[1..], ref, u);
    }
  }

  /** The host of ref is away in every state of the run. */
  ghost predicate HostGone(s: State, run: seq<Step>, ref: Ref)
    decreases |run|
  {
    && ref in s.rooms && s.rooms[ref].hostAway.Some?
    && (run != [] && Enabled(s, run[0]) ==> HostGone(Next(s, run[0]), run[1..], ref))
  }

  /** While the host is away the moment they left stays the same. */
  lemma {:induction false} StampLasts(s: State, run: seq<Step>, ref: Ref)
    requires Inv(s) && Regular(s, run) && HostGone(s, run, ref)
    ensures var t := After(s, run); ref in t.rooms && t.rooms[ref].hostAway == s.rooms[ref].hostAway
    decreases |run|
  {
    hide Inv, Enabled, Proper, Next;
    if run != [] {
      StepKeeps(s, run[0]);
      StepLasts(s, run[0]);
      StampLasts(Next(s, run[0]), run[1..], ref);
    }
  }

  /** What a reconnect finds stored: nothing it was told before is missing, and
      handing it out leaves nothing behind. */
  lemma OutcomeIsKept(s: State, run: seq<Step>, ref: Ref, u: UserId, n: Notice, c: ConnId)
    requires Inv(s) && Regular(s, run) && ref in s.rooms && u in s.rooms[ref].away && Undismissed(s, run, ref, u)
    requires n in NoticesIn(s.rooms[ref].notices, u)
    requires var t := After(s, run);
             c in t.attempts && ref in t.rooms && Succeeds(t, c, ref) && t.attempts[c].session.user == u
    ensures var t := After(s, run);
            n in NoticesIn(t.rooms[ref].notices, u) && NoticesIn(Consumed(t, c, ref).rooms[ref].notices, u) == []
  {
    hide Inv, Regular, Undismissed, Rejoined, After;
    SeatStays(s, run, ref, u);
    var t := After(s, run);
    RejoinedStays(t.rooms[ref], Consumed(t, c, ref).conns, c, u);
  }
}
