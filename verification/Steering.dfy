/**
 Whose hand is on a room's playback: of all the steps of the server, only the
 actions and approvals of the connected host of the room change it.
 */
module Steering {
  import opened Base
  import opened Text
  import opened Tracks
  import opened Playback
  import opened Rooms
  import opened Links
  import opened Lobby
  import opened LobbyRooms
  import opened Runs

  /** The same state of playback; a new host's sequence numbers start over. */
  predicate SamePlayback(p: Play, q: Play) { q == p.(lastHostSeq := q.lastHostSeq) }

  /** The room plays on; whoever newly holds the seat counts from zero. */
  predicate SameTune(r: Room, q: Room)
  {
    SamePlayback(r.play, q.play) && (q.host == r.host || q.host.None? || q.play.lastHostSeq == 0)
  }

  /** The connected host of ref acted at `now`, and t holds what came of it. */
  ghost predicate Steered(s: State, a: Step, t: State, ref: Ref)
  {
    && ref in s.rooms && ref in t.rooms && (a.Control? || a.ApproveSuggestion?)
    && Hosting(s, a.c) && s.conns[a.c].room == Some(ref) && Tick(s, a.nowMs) && t.clock == a.nowMs
    && t.rooms[ref].host == s.rooms[ref].host
    && (a.Control? ==> t.rooms[ref].play == Apply(s.rooms[ref].play, Playback.Host(a.m, s.conns[a.c].rtt), a.nowMs).0)
    && (a.ApproveSuggestion? ==>
          && a.id in s.rooms[ref].suggestions
          && var x := s.rooms[ref].suggestions[a.id];
             t.rooms[ref].play == Apply(s.rooms[ref].play, Playback.Suggest(x.track.(suggestedBy := x.authorName)), a.nowMs).0)
  }

  const Silence := Play(None, false, 0, 0, 1.0, [], 0, [], 0, 0)

  /** Rooms stay; each plays on as it did or is steered; a new one starts silent. */
  ghost predicate PlaysOn(s: State, a: Step, t: State)
  {
    && s.clock <= t.clock && (t.clock == s.clock || Clock(t.clock))
    && (forall ref :: ref in s.rooms ==> ref in t.rooms && (SameTune(s.rooms[ref], t.rooms[ref]) || Steered(s, a, t, ref)))
    && (forall ref :: ref in t.rooms && ref !in s.rooms ==>
         Clock(t.clock) && t.rooms[ref].play == Silence.(lastUpdate := t.clock))
  }

  lemma PlaysSame(s: State, a: Step, t: State)
    requires t.rooms == s.rooms && t.clock == s.clock
    ensures PlaysOn(s, a, t)
  {
  }

  lemma PlaysPut(s: State, a: Step, t: State, ref: Ref, q: Room)
    requires ref in s.rooms && t.rooms == s.rooms[ref := q] && t.clock == s.clock && SameTune(s.rooms[ref], q)
    ensures PlaysOn(s, a, t)
  {
  }

  lemma PlaysEach(s: State, a: Step, t: State)
    requires t.rooms.Keys == s.rooms.Keys && t.clock == s.clock
    requires forall ref :: ref in s.rooms ==>
               t.rooms[ref].play == s.rooms[ref].play
               && (t.rooms[ref].host == s.rooms[ref].host || t.rooms[ref].host.None?)
    ensures PlaysOn(s, a, t)
  {
  }

  // ---- room by room ----

  lemma DeparturePlays(r: Room, conns: Conns, c: ConnId, u: UserId, d: Option<ConnId>)
    requires d.Some? ==> d.value in conns
    ensures SameTune(r, Left(r, conns, c, u, d)) && SameTune(r, Expired(r, conns, u, d))
  {
    hide WithoutUser, Unsuggest, FlagHost, SamePlayback;
    var p := r.play;
    assert SamePlayback(p, p) && SamePlayback(p, p.(lastHostSeq := 0)) by { Restarted(p); }
  }

  lemma Restarted(p: Play)
    ensures SamePlayback(p, p) && SamePlayback(p, p.(lastHostSeq := 0))
  {
  }

  lemma KickedPlays(r: Room, u: UserId)
    ensures Kicked(r, u).play == r.play && Kicked(r, u).host == r.host
  {
    hide WithoutUser, Unsuggest;
  }

  lemma SeatPlays(r: Room, conns: Conns, c: ConnId, u: UserId)
    requires c in conns
    ensures SameTune(r, Transferred(r, conns, c)) && SameTune(r, FailedOver(r, conns, c))
    ensures SameTune(r, Rejoined(r, conns, c, u))
  {
    hide MarkUser, FlagHost;
  }

  lemma DisconnectPlays(r: Room, c: ConnId, u: UserId, name: Str, now: Time)
    ensures var q := Disconnected(r, c, u, name, now); q.play == r.play && (q.host == r.host || q.host.None?)
  {
    hide MarkUser;
  }

  lemma ResolvePlays(r: Room, id: SuggestionId, n: Notice)
    requires id in r.suggestions
    ensures Resolved(r, id, n).play == r.play && Resolved(r, id, n).host == r.host
  {
  }

  // ---- step by step ----

  lemma CreatePlays(s: State, a: Step, c: ConnId, raw: Str, code: Code, ref: Ref, token: Token, now: int)
    requires c in s.conns && ref !in s.rooms && Tick(s, now)
    ensures PlaysOn(s, a, DoCreate(s, c, raw, code, ref, token, now))
  {
    hide Sanitize, CreateOk;
    if !CreateOk(s, c, raw, code) { PlaysSame(s, a, s); }
  }

  lemma JoinPlays(s: State, a: Step, c: ConnId, raw: Str, code: Code)
    requires c in s.conns
    ensures PlaysOn(s, a, DoJoin(s, c, raw, code))
  {
    hide Sanitize, JoinOk, PlaysOn;
    PlaysEach(s, a, DoJoin(s, c, raw, code));
  }

  lemma CancelPlays(s: State, a: Step, c: ConnId, id: UserId)
    requires c in s.conns
    ensures PlaysOn(s, a, DoRemovePending(s, c)) && PlaysOn(s, a, DoCancel(s, c, id))
  {
    hide PlaysOn;
    PlaysEach(s, a, DoRemovePending(s, c));
    PlaysEach(s, a, DoCancel(s, c, id));
  }

  lemma LeavePlays(s: State, a: Step, c: ConnId, d: Option<ConnId>)
    requires InRoom(s, c) && (d.Some? ==> d.value in s.conns)
    ensures PlaysOn(s, a, DoLeave(s, c, d))
  {
    hide Left, Refs, Dead, SameTune;
    var ref := s.conns[c].room.value;
    var t := DoLeave(s, c, d);
    if Active(s, c) {
      DeparturePlays(s.rooms[ref], s.conns, c, s.conns[c].id, d);
      PlaysPut(s, a, t, ref, t.rooms[ref]);
    } else {
      PlaysSame(s, a, t);
    }
  }

  lemma DetachPlays(s: State, a: Step, c: ConnId, now: Time, token: Token)
    requires InRoom(s, c)
    ensures PlaysOn(s, a, DoDetach(s, c, now, token))
  {
    hide Disconnected;
    var ref := s.conns[c].room.value;
    var t := DoDetach(s, c, now, token);
    DisconnectPlays(s.rooms[ref], c, s.conns[c].id, s.conns[c].name, now);
    PlaysPut(s, a, t, ref, t.rooms[ref]);
  }

  lemma SuggestPlays(s: State, a: Step, c: ConnId, id: SuggestionId, track: Track)
    requires c in s.conns
    ensures PlaysOn(s, a, DoSuggest(s, c, id, track))
  {
    hide CleanTrack, SuggestOk, PlaysOn;
    PlaysEach(s, a, DoSuggest(s, c, id, track));
  }

  lemma GuestPlays(s: State, a: Step)
    requires Enabled(s, a) && FromGuest(a)
    ensures PlaysOn(s, a, GuestStep(s, a))
  {
    hide Deputy, Clock, DoCreate, DoJoin, DoRemovePending, DoCancel, DoLeave, DoDetach, DoSuggest, PlaysOn;
    match a
    case Connect(_, _, _) => PlaysSame(s, a, GuestStep(s, a));
    case Measure(_, _) => PlaysSame(s, a, GuestStep(s, a));
    case Close(_) => PlaysSame(s, a, GuestStep(s, a));
    case Create(c, raw, code, x, token, now) => CreatePlays(s, a, c, raw, code, x, token, now);
    case Join(c, raw, code) => JoinPlays(s, a, c, raw, code);
    case RemovePending(c) => CancelPlays(s, a, c, s.conns[c].id);
    case Cancel(c, id) => CancelPlays(s, a, c, id);
    case Leave(c, d) => LeavePlays(s, a, c, d);
    case Detach(c, now, token) => DetachPlays(s, a, c, now, token);
    case Suggest(c, id, track) => SuggestPlays(s, a, c, id, track);
  }

  lemma WithdrawPlays(s: State, a: Step, c: ConnId, ref: Ref, key: UserId)
    requires ref in s.rooms
    ensures PlaysOn(s, a, Withdrawn(s, c, ref, key))
  {
    hide PlaysOn;
    PlaysEach(s, a, Withdrawn(s, c, ref, key));
  }

  lemma AdmitPlays(s: State, a: Step, j: ConnId, ref: Ref, key: UserId, token: Token)
    requires j in s.conns && ref in s.rooms
    ensures PlaysOn(s, a, Admit(s, j, ref, key, token))
  {
    hide PlaysOn;
    PlaysEach(s, a, Admit(s, j, ref, key, token));
  }

  lemma AnswerPlays(s: State, a: Step, c: ConnId, key: UserId, token: Token)
    requires InRoom(s, c)
    ensures PlaysOn(s, a, DoApprove(s, c, key, token)) && PlaysOn(s, a, DoRejectJoin(s, c, key))
  {
    hide PlaysOn, Withdrawn, Admit, Hosting;
    PlaysSame(s, a, s);
    if Answers(s, c, key) {
      WithdrawPlays(s, a, RoomOf(s, c).pending[key], s.conns[c].room.value, key);
      AdmitPlays(s, a, RoomOf(s, c).pending[key], s.conns[c].room.value, key, token);
    }
  }

  lemma KickPlays(s: State, a: Step, c: ConnId, u: UserId)
    requires InRoom(s, c)
    ensures PlaysOn(s, a, DoKick(s, c, u))
  {
    hide Kicked, Refs, TokensOf, PlaysOn;
    var ref := s.conns[c].room.value;
    var t := DoKick(s, c, u);
    if KickOk(s, c, u) {
      KickedPlays(s.rooms[ref], u);
      PlaysPut(s, a, t, ref, t.rooms[ref]);
    } else {
      PlaysSame(s, a, t);
    }
  }

  lemma TransferPlays(s: State, a: Step, c: ConnId, u: UserId)
    requires InRoom(s, c)
    ensures PlaysOn(s, a, DoTransfer(s, c, u))
  {
    hide Transferred, SameTune, PlaysOn;
    var t := DoTransfer(s, c, u);
    if TransferOk(s, c, u) {
      SeatPlays(RoomOf(s, c), s.conns, RoomOf(s, c).clients[u], u);
      PlaysPut(s, a, t, s.conns[c].room.value, t.rooms[s.conns[c].room.value]);
    } else {
      PlaysSame(s, a, t);
    }
  }

  lemma ApprovalPlays(s: State, a: Step, c: ConnId, id: SuggestionId, now: int)
    requires InRoom(s, c) && Tick(s, now) && a == ApproveSuggestion(c, id, now)
    ensures PlaysOn(s, a, DoApproveSuggestion(s, c, id, now))
  {
    hide Suggested, Resolved;
    var ref := s.conns[c].room.value;
    var t := DoApproveSuggestion(s, c, id, now);
    if t == s {
      PlaysSame(s, a, t);
    } else {
      var x := s.rooms[ref].suggestions[id];
      ResolvePlays(s.rooms[ref], id, Approved(id, x.track.(suggestedBy := x.authorName)));
      if Suggested(s.rooms[ref].play, x.track.(suggestedBy := x.authorName), now).1.Applied? {
        assert Steered(s, a, t, ref);
      } else {
        PlaysPut(s, a, t, ref, t.rooms[ref]);
      }
    }
  }

  lemma RejectionPlays(s: State, a: Step, c: ConnId, id: SuggestionId, reason: Str)
    requires c in s.conns
    ensures PlaysOn(s, a, DoRejectSuggestion(s, c, id, reason))
  {
    hide Resolved, Sanitize, PlaysOn;
    var t := DoRejectSuggestion(s, c, id, reason);
    if t == s {
      PlaysSame(s, a, t);
    } else {
      var ref := s.conns[c].room.value;
      ResolvePlays(s.rooms[ref], id, Rejected(id, Sanitize(reason, 200)));
      PlaysPut(s, a, t, ref, t.rooms[ref]);
    }
  }

  lemma ControlPlays(s: State, a: Step, c: ConnId, m: Request, now: int)
    requires InRoom(s, c) && Tick(s, now) && a == Control(c, m, now)
    ensures PlaysOn(s, a, DoControl(s, c, m, now))
  {
    hide Handle;
    var ref := s.conns[c].room.value;
    var t := DoControl(s, c, m, now);
    if t == s { PlaysSame(s, a, t); } else { assert Steered(s, a, t, ref); }
  }

  lemma HostPlays(s: State, a: Step)
    requires Enabled(s, a) && FromHost(a)
    ensures PlaysOn(s, a, HostStep(s, a))
  {
    hide Clock, DoApprove, DoRejectJoin, DoKick, DoTransfer, DoApproveSuggestion, DoRejectSuggestion, DoControl,
      PlaysOn;
    match a
    case Approve(c, key, token) => AnswerPlays(s, a, c, key, token);
    case RejectJoin(c, key) => AnswerPlays(s, a, c, key, []);
    case Kick(c, u) => KickPlays(s, a, c, u);
    case Transfer(c, u) => TransferPlays(s, a, c, u);
    case ApproveSuggestion(c, id, now) => ApprovalPlays(s, a, c, id, now);
    case RejectSuggestion(c, id, reason) => RejectionPlays(s, a, c, id, reason);
    case Control(c, m, now) => ControlPlays(s, a, c, m, now);
  }

  lemma ConsumePlays(s: State, a: Step, c: ConnId, ref: Ref)
    requires c in s.attempts && ref in s.rooms
    ensures PlaysOn(s, a, DoConsume(s, c, ref))
  {
    hide Rejoined, SameTune, PlaysOn;
    var t := DoConsume(s, c, ref);
    if Succeeds(s, c, ref) {
      SeatPlays(s.rooms[ref], t.conns, c, s.attempts[c].session.user);
      PlaysPut(s, a, t, ref, t.rooms[ref]);
    } else {
      PlaysSame(s, a, t);
    }
  }

  lemma ExpirePlays(s: State, a: Step, x: Session, d: Option<ConnId>)
    requires x.code in s.registry && s.registry[x.code] in s.rooms && (d.Some? ==> d.value in s.conns)
    ensures PlaysOn(s, a, DoExpire(s, x, d))
  {
    hide Expired, Dead, SameTune, PlaysOn;
    var ref := s.registry[x.code];
    var t := DoExpire(s, x, d);
    if x.user in s.rooms[ref].away {
      DeparturePlays(s.rooms[ref], s.conns, 0, x.user, d);
      PlaysPut(s, a, t, ref, t.rooms[ref]);
    } else {
      PlaysSame(s, a, t);
    }
  }

  lemma FailoverPlays(s: State, a: Step, ref: Ref, now: Time, d: Option<ConnId>)
    requires ref in s.rooms && (d.Some? ==> d.value in s.conns)
    ensures PlaysOn(s, a, DoFailover(s, ref, now, d))
  {
    hide FailedOver, FailoverDue, SameTune, PlaysOn;
    var t := DoFailover(s, ref, now, d);
    if d.Some? && FailoverDue(s.rooms[ref], now) {
      SeatPlays(s.rooms[ref], s.conns, d.value, []);
      PlaysPut(s, a, t, ref, t.rooms[ref]);
    } else {
      PlaysSame(s, a, t);
    }
  }

  lemma ClosePlays(s: State, a: Step, ref: Ref)
    requires ref in s.rooms
    ensures PlaysOn(s, a, DoDelete(s, ref)) && PlaysOn(s, a, DoCloseRoom(s, ref))
  {
    hide ReleaseAll, Refs, PlaysOn;
    PlaysEach(s, a, DoDelete(s, ref));
    PlaysEach(s, a, DoCloseRoom(s, ref));
  }

  lemma TokenStepPlays(s: State, a: Step)
    requires Enabled(s, a) && (a.Claim? || a.Lookup? || a.DropToken? || a.Release? || a.Take? || a.ExpireStale?)
    ensures PlaysOn(s, a, ServerStep(s, a))
  {
    hide Refs, ExpiredTokens, ClaimOk, PlaysOn;
    PlaysSame(s, a, ServerStep(s, a));
  }

  lemma ServerPlays(s: State, a: Step)
    requires Enabled(s, a) && !FromGuest(a) && !FromHost(a)
    ensures PlaysOn(s, a, ServerStep(s, a))
  {
    hide Deputy, DoClaim, DoLookup, DoRelease, DoTake, Revoke, DoConsume, DoExpire, DoFailover, DoDelete, DoCloseRoom,
      PlaysOn;
    match a
    case Consume(c, ref) => ConsumePlays(s, a, c, ref);
    case Expire(x, d) => ExpirePlays(s, a, x, d);
    case Failover(ref, now, d) => FailoverPlays(s, a, ref, now, d);
    case Delete(ref) => ClosePlays(s, a, ref);
    case CloseRoom(ref) => ClosePlays(s, a, ref);
    case _ => TokenStepPlays(s, a);
  }

  lemma StepPlays(s: State, a: Step)
    requires Enabled(s, a)
    ensures PlaysOn(s, a, Next(s, a))
  {
    hide Enabled, PlaysOn, GuestStep, HostStep, ServerStep;
    if FromGuest(a) { GuestPlays(s, a); } else if FromHost(a) { HostPlays(s, a); } else { ServerPlays(s, a); }
  }

  /** Nobody but its connected host changes what a room plays: whatever step is
      taken, in whatever state, the playback of every room stays as it was unless
      the step is an action or an approval of the host connected to that room. */
  lemma OnlyTheHostSteers(s: State, a: Step, ref: Ref)
    requires Enabled(s, a) && ref in s.rooms
    ensures var t := Next(s, a);
            && ref in t.rooms
            && (SamePlayback(s.rooms[ref].play, t.rooms[ref].play)
                || ((a.Control? || a.ApproveSuggestion?) && Hosting(s, a.c) && s.conns[a.c].room == Some(ref)))
  {
    hide Enabled, Next, SamePlayback, Hosting;
    StepPlays(s, a);
  }

  /** Whoever takes the seat, by whatever step, is not held to the sequence
      numbers of the host before: their first action is never refused as stale. */
  lemma NewHostStartsOver(s: State, a: Step, ref: Ref, m: Request, now: int, rtt: int)
    requires Enabled(s, a) && ref in s.rooms
    ensures var t := Next(s, a);
            && ref in t.rooms
            && (t.rooms[ref].host.Some? && t.rooms[ref].host != s.rooms[ref].host ==>
                  Handle(t.rooms[ref].play, m, now, rtt).1 != Failed(StaleAction))
  {
    hide Enabled, Next, SamePlayback, Hosting, Apply, Clock, Handle;
    StepPlays(s, a);
    var t := Next(s, a);
    if t.rooms[ref].play.lastHostSeq == 0 { FirstActionIsHeard(t.rooms[ref].play, m, now, rtt); }
  }

  lemma FirstActionIsHeard(p: Play, m: Request, now: int, rtt: int)
    requires p.lastHostSeq == 0
    ensures Handle(p, m, now, rtt).1 != Failed(StaleAction)
  {
    hide CleanTrack, CleanQueue, WireSize, Live, Compensate, HasTrack, Without, Advance;
  }
}
