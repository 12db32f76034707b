/** Runs of the server: any number of connections, any interleaving of steps. */
module Runs {
  import opened Base
  import opened Text
  import opened Tracks
  import opened Playback
  import opened Rooms
  import opened Links
  import opened Lobby
  import opened LobbyRooms
  import opened LobbyLinks
  import opened Tokens
  import opened LobbyRuns
  import opened LobbyTimers

  /** Every step of the run can be taken. */
  ghost predicate Possible(s: State, run: seq<Step>)
    decreases |run|
  {
    run != [] ==> Enabled(s, run[0]) && Possible(Next(s, run[0]), run[1..])
  }

  /** Every step of the run can be taken and is proper. */
  ghost predicate Regular(s: State, run: seq<Step>)
    decreases |run|
  {
    run != [] ==> Enabled(s, run[0]) && Proper(s, run[0]) && Regular(Next(s, run[0]), run[1..])
  }

  /** The state a run leads to; a step that cannot be taken ends it. */
  ghost function After(s: State, run: seq<Step>): State
    decreases |run|
  {
    if run == [] || !Enabled(s, run[0]) then s else After(Next(s, run[0]), run[1..])
  }

  /** A member acting in its room is active there, with a token of its own. */
  lemma ActiveAlways(s: State, c: ConnId)
    requires Inv(s) && InRoom(s, c)
    ensures Registered(s, s.conns[c].room.value) && Active(s, c) && s.conns[c].token.Some?
  {
    hide Inv, Departing, Roster;
    ActiveFacts(s, c);
    ActiveHome(s, c);
  }

  lemma ActiveHome(s: State, c: ConnId)
    requires Inv(s) && InRoom(s, c)
    ensures Active(s, c)
  {
    hide RegInv, RoomsInv, LinkInv, ClosingInv, TokensOk;
    HomeIsLive(s, c);
  }

  lemma InvLinking(s: State)
    requires Inv(s)
    ensures Linking(s)
  {
    hide RegInv, RoomsInv, LinkInv, ClosingInv, TokensOk;
  }

  /** Members and seats of a registered room are different people. */
  lemma SidesApart(s: State, ref: Ref)
    requires Inv(s) && Registered(s, ref)
    ensures s.rooms[ref].clients.Keys !! s.rooms[ref].away.Keys
  {
    hide RegInv, LinkInv, ClosingInv, TokensOk, HostInv, MailInv;
    assert RoomInv(s.rooms[ref], s.conns);
  }

  lemma JoinTarget(s: State, code: Code)
    requires Inv(s) && code in s.registry && s.registry[code] in s.rooms
    ensures Registered(s, s.registry[code])
  {
    hide RoomsInv, LinkInv, ClosingInv, TokensOk;
  }

  lemma GuestKeeps(s: State, a: Step)
    requires Inv(s) && Enabled(s, a) && FromGuest(a) && Proper(s, a)
    ensures Inv(GuestStep(s, a))
  {
    hide Inv, Deputy, CleanTrack, SuggestOk, Sanitize, Newcomer;
    match a
    case Connect(c, id, allow) => ConnectKeeps(s, c, id, allow);
    case Measure(c, rtt) => ConnOnlyKeeps(s, GuestStep(s, a), c, s.conns[c].(rtt := rtt));
    case Close(c) => ConnOnlyKeeps(s, GuestStep(s, a), c, s.conns[c].(closed := true));
    case Create(c, raw, code, ref, token, now) =>
      if CreateOk(s, c, raw, code) { CreateKeeps(s, c, raw, code, ref, token, now); }
    case Join(c, raw, code) => DoJoinKeeps(s, c, raw, code);
    case RemovePending(c) => RemovePendingKeeps(s, c);
    case Cancel(c, id) => CancelKeeps(s, c, id);
    case Leave(c, d) => ActiveAlways(s, c); LeaveKeeps(s, c, d);
    case Detach(c, now, token) => ActiveAlways(s, c); DetachKeeps(s, c, now);
    case Suggest(c, id, track) => DoSuggestKeeps(s, c, id, track);
  }

  lemma DoJoinKeeps(s: State, c: ConnId, raw: Str, code: Code)
    requires Inv(s) && Ready(s, c)
    ensures Inv(DoJoin(s, c, raw, code))
  {
    hide Inv, Sanitize;
    if JoinHeard(s, c, raw, code) {
      var name := Sanitize(raw, MAX_USERNAME);
      JoinTarget(s, code);
      if JoinOk(s.rooms[s.registry[code]], s.conns[c].id) {
        JoinKeeps(s, c, name, s.registry[code]);
      } else {
        ConnOnlyKeeps(s, DoJoin(s, c, raw, code), c, s.conns[c].(name := name));
      }
    }
  }

  lemma DoSuggestKeeps(s: State, c: ConnId, id: SuggestionId, track: Track)
    requires Inv(s) && c in s.conns && forall ref :: ref in s.rooms ==> id !in s.rooms[ref].suggestions
    ensures Inv(DoSuggest(s, c, id, track))
  {
    hide Inv, CleanTrack, SuggestOk, Submitted;
    var k := s.conns[c];
    if k.room.Some? && k.room.value in s.rooms && CleanTrack(track).Some? && SuggestOk(s, c, CleanTrack(track).value) {
      SuggestKeeps(s, c, id, CleanTrack(track).value);
    }
  }

  lemma HostKeeps(s: State, a: Step)
    requires Inv(s) && Enabled(s, a) && FromHost(a) && Proper(s, a)
    ensures Inv(HostStep(s, a))
  {
    hide Inv, Handle, Suggested, Eligible, Resolved, Newcomer;
    match a
    case Approve(c, key, token) => ApproveKeeps(s, c, key, token);
    case RejectJoin(c, key) =>
      if Answers(s, c, key) { WithdrawKeeps(s, RoomOf(s, c).pending[key], s.conns[c].room.value, key); }
    case Kick(c, u) => DoKickKeeps(s, c, u);
    case Transfer(c, u) => if TransferOk(s, c, u) { TransferKeeps(s, c, u); }
    case ApproveSuggestion(c, id, now) => ApproveSuggestionKeeps(s, c, id, now);
    case RejectSuggestion(c, id, reason) => RejectSuggestionKeeps(s, c, id, reason);
    case Control(c, m, now) => DoControlKeeps(s, c, m, now);
  }

  lemma ApproveKeeps(s: State, c: ConnId, key: UserId, token: Token)
    requires Inv(s) && InRoom(s, c) && token !in s.usedTokens
    requires Answers(s, c, key) && Admissible(s, c, key) ==> Newcomer(s, s.conns[RoomOf(s, c).pending[key]].id)
    ensures Inv(DoApprove(s, c, key, token))
  {
    hide Inv, Withdrawn, Admit, Newcomer;
    if Answers(s, c, key) {
      InvApplicant(s, s.conns[c].room.value, key);
      if Admissible(s, c, key) {
        AdmitKeeps(s, c, key, token);
      } else {
        WithdrawKeeps(s, RoomOf(s, c).pending[key], s.conns[c].room.value, key);
      }
    }
  }

  lemma InvApplicant(s: State, ref: Ref, key: UserId)
    requires Inv(s) && ref in s.rooms && key in s.rooms[ref].pending
    ensures var j := s.rooms[ref].pending[key]; j in s.conns && s.conns[j].id == key
  {
    hide RegInv, RoomsInv, LinkInv, ClosingInv, TokensOk;
    ApplicantKnown(s, ref, key);
  }

  lemma DoKickKeeps(s: State, c: ConnId, u: UserId)
    requires Inv(s) && InRoom(s, c)
    ensures Inv(DoKick(s, c, u))
  {
    hide Inv, KickActive, KickAway;
    if KickOk(s, c, u) {
      if u in RoomOf(s, c).clients { KickActiveKeeps(s, c, u); } else { KickAwayKeeps(s, c, u); }
    }
  }

  lemma ApproveSuggestionKeeps(s: State, c: ConnId, id: SuggestionId, now: int)
    requires Inv(s) && InRoom(s, c)
    ensures Inv(DoApproveSuggestion(s, c, id, now))
  {
    hide Inv, Suggested, Resolved, Signed, PutRoom;
    var ref := s.conns[c].room.value;
    var r := s.rooms[ref];
    if Hosting(s, c) && id in r.suggestions {
      ActiveAlways(s, c);
      ClockElsewhere(s, now);
      var x := r.suggestions[id];
      var t := x.track.(suggestedBy := x.authorName);
      ResolveKeeps(s.(clock := now), ref, id, Approved(id, t), Suggested(r.play, t, now).0);
      SignKeeps(s, ref, id);
    }
  }

  lemma RejectSuggestionKeeps(s: State, c: ConnId, id: SuggestionId, reason: Str)
    requires Inv(s) && c in s.conns
    ensures Inv(DoRejectSuggestion(s, c, id, reason))
  {
    hide Inv, Resolved, Sanitize;
    var k := s.conns[c];
    if k.room.Some? && k.room.value in s.rooms && id in s.rooms[k.room.value].suggestions {
      var r := s.rooms[k.room.value];
      HomeRegistered(s, c);
      var n := Rejected(id, Sanitize(reason, 200));
      ResolveKeeps(s, k.room.value, id, n, r.play);
      SamePlay(r, id, n);
    }
  }

  lemma SamePlay(r: Room, id: SuggestionId, n: Notice)
    requires id in r.suggestions
    ensures Resolved(r, id, n).(play := r.play) == Resolved(r, id, n)
  {
  }

  lemma HomeRegistered(s: State, c: ConnId)
    requires Inv(s) && c in s.conns && s.conns[c].room.Some?
    ensures Registered(s, s.conns[c].room.value)
  {
    hide RegInv, RoomsInv, LinkInv, ClosingInv, TokensOk;
    HomeIsLive(s, c);
  }

  lemma DoControlKeeps(s: State, c: ConnId, m: Request, now: int)
    requires Inv(s) && InRoom(s, c)
    ensures Inv(DoControl(s, c, m, now))
  {
    hide Inv, Handle;
    ActiveAlways(s, c);
    var r := RoomOf(s, c);
    ClockElsewhere(s, now);
    ControlKeeps(s.(clock := now), s.conns[c].room.value, Handle(r.play, m, now, s.conns[c].rtt).0);
  }

  lemma ServerKeeps(s: State, a: Step)
    requires Inv(s) && Enabled(s, a) && !FromGuest(a) && !FromHost(a) && Proper(s, a)
    ensures Inv(ServerStep(s, a))
  {
    hide Inv, Deputy, Untokened, DoClaim, DoLookup, DoConsume, DoRelease, DoTake, DoExpire, DoFailover, DoCloseRoom,
      Deleted, Registered;
    match a
    case Claim(c, t, now) => ClaimKeeps(s, c, t, now);
    case Lookup(c) => LookupKeeps(s, c);
    case DropToken(c) => InvTokens(s); DropTokenIdle(s, c);
    case Consume(c, ref) => DoConsumeKeeps(s, c, ref);
    case Release(c) => ReleaseKeeps(s, c);
    case Take(now) => TakeKeeps(s, now);
    case Expire(x, d) => DoExpireKeeps(s, x, d);
    case ExpireStale(x) => StaleExpiry(s, x);
    case Failover(ref, now, d) => FailoverKeeps(s, ref, now, d);
    case Delete(ref) => if Registered(s, ref) && Deserted(s.rooms[ref]) { DeleteKeeps(s, ref); }
    case CloseRoom(ref) => CloseKeeps(s, ref);
  }

  lemma InvTokens(s: State)
    requires Inv(s)
    ensures TokensOk(s)
  {
    hide RoomsOk, ClosingInv, TokensOk;
  }

  /** Every proper step of every handler and timer keeps the whole invariant. */
  lemma StepKeeps(s: State, a: Step)
    requires Inv(s) && Enabled(s, a) && Proper(s, a)
    ensures Inv(Next(s, a))
  {
    hide Inv, Enabled, Proper, GuestStep, HostStep, ServerStep;
    if FromGuest(a) {
      GuestKeeps(s, a);
    } else if FromHost(a) {
      HostKeeps(s, a);
    } else {
      ServerKeeps(s, a);
    }
  }

  lemma EmptyIsSound()
    ensures Inv(Empty)
  {
    assert Accounted(Empty);
  }

  lemma {:induction false} RunKeeps(s: State, run: seq<Step>)
    requires Inv(s) && Regular(s, run)
    ensures Inv(After(s, run))
    decreases |run|
  {
    hide Inv, Next, Enabled, Proper;
    if run != [] {
      StepKeeps(s, run[0]);
      RunKeeps(Next(s, run[0]), run[1..]);
    }
  }

  /** One more step at the end of a run. */
  lemma {:induction false} RunExtends(s: State, run: seq<Step>, a: Step)
    requires Regular(s, run) && Enabled(After(s, run), a) && Proper(After(s, run), a)
    ensures Regular(s, run + [a]) && After(s, run + [a]) == Next(After(s, run), a)
    decreases |run|
  {
    hide Enabled, Next, Proper;
    if run == [] {
      assert run + [a] == [a] && [a][1..] == [];
      assert Regular(Next(s, a), []) && After(Next(s, a), []) == Next(s, a);
    } else {
      RunExtends(Next(s, run[0]), run[1..], a);
      assert (run + [a])[1..] == run[1..] + [a];
    }
  }

  lemma NoRun(s: State)
    ensures Regular(s, []) && After(s, []) == s
  {
  }
}
