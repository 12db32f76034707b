/**
 Failover keeps the seat's owner: whoever lost the seat by being away stays the
 owner through any run of deputies until they return, or until a transfer, a
 kick, their expiry or the end of the room settles the matter.
 */
module Owners {
  import opened Base
  import opened Text
  import opened Tracks
  import opened Playback
  import opened Rooms
  import opened Links
  import opened Lobby
  import opened LobbyRooms
  import opened LobbyLinks
  import opened Tokens
  import opened LobbyRuns
  import opened LobbyTimers
  import opened Runs
  import opened Records
  import opened Restart
  import opened Snapshots
  import opened Reboot
  import opened Grace
  import opened Safety

  /** o waits for the seat of a registered room. */
  ghost predicate Waits(s: State, ref: Ref, o: UserId) { Registered(s, ref) && s.rooms[ref].owner == Some(o) }

  /** The steps that settle the matter, as far as they are not refused: the seat
      is given away, the owner is removed, expires or returns, or the room closes. */
  ghost predicate Settles(s: State, a: Step, ref: Ref, o: UserId)
  {
    match a
    case Transfer(c, u) => InRoom(s, c) && s.conns[c].room == Some(ref) && TransferOk(s, c, u)
    case Kick(c, u) => u == o && InRoom(s, c) && s.conns[c].room == Some(ref) && KickOk(s, c, u)
    case Consume(c, x) =>
      x == ref && c in s.attempts && x in s.rooms && Succeeds(s, c, x) && s.attempts[c].session.user == o
    case Expire(x, _) =>
      x.user == o && x.code in s.registry && s.registry[x.code] == ref && ref in s.rooms && o in s.rooms[ref].away
    case CloseRoom(x) => x == ref
    case _ => false
  }

  /** The room still waits for o, seen from the state before. */
  ghost predicate StillWaits(s: State, t: State, ref: Ref, o: UserId)
  {
    && ref in s.rooms && ref in t.rooms && t.rooms[ref].owner == Some(o)
    && t.rooms[ref].code == s.rooms[ref].code && s.rooms[ref].code in t.registry && t.registry[s.rooms[ref].code] == ref
  }

  // ---- room by room ----

  lemma LeftOwner(r: Room, conns: Conns, c: ConnId, u: UserId, d: Option<ConnId>)
    requires (d.Some? ==> d.value in conns) && r.owner != Some(u)
    ensures var q := Left(r, conns, c, u, d); q.owner == r.owner && q.code == r.code
  {
    hide WithoutUser, Unsuggest, FlagHost;
  }

  lemma KickedOwner(r: Room, u: UserId)
    requires r.owner != Some(u)
    ensures Kicked(r, u).owner == r.owner && Kicked(r, u).code == r.code
  {
    hide WithoutUser, Unsuggest;
  }

  lemma ExpiredOwner(r: Room, conns: Conns, u: UserId, d: Option<ConnId>)
    requires (d.Some? ==> d.value in conns) && r.owner != Some(u)
    ensures var q := Expired(r, conns, u, d); q.owner == r.owner && q.code == r.code
  {
    hide WithoutUser, Unsuggest, FlagHost;
  }

  lemma RejoinedOwner(r: Room, conns: Conns, c: ConnId, u: UserId)
    requires c in conns && r.owner != Some(u)
    ensures var q := Rejoined(r, conns, c, u); q.owner == r.owner && q.code == r.code
  {
    hide MarkUser, FlagHost;
  }

  // ---- step by step ----

  /** An owner is away, so no connection acts under the owner's ID. */
  lemma OwnerIsAway(s: State, ref: Ref, o: UserId)
    requires Inv(s) && Waits(s, ref, o)
    ensures o in s.rooms[ref].away && s.rooms[ref].away[o].isHost && o !in s.rooms[ref].clients
  {
    hide RegInv, LinkInv, ClosingInv, TokensOk, MailInv;
    assert RoomInv(s.rooms[ref], s.conns);
    Apart(s.rooms[ref], o);
    hide RoomsInv, Roster;
  }

  lemma CreateWaits(s: State, c: ConnId, raw: Str, code: Code, x: Ref, token: Token, now: int, ref: Ref, o: UserId)
    requires c in s.conns && x !in s.rooms && Waits(s, ref, o)
    ensures StillWaits(s, DoCreate(s, c, raw, code, x, token, now), ref, o)
  {
    hide Sanitize, Opened;
  }

  lemma JoinWaits(s: State, c: ConnId, raw: Str, code: Code, ref: Ref, o: UserId)
    requires c in s.conns && Waits(s, ref, o)
    ensures StillWaits(s, DoJoin(s, c, raw, code), ref, o)
  {
    hide Sanitize, JoinOk;
  }

  lemma CancelWaits(s: State, c: ConnId, id: UserId, ref: Ref, o: UserId)
    requires c in s.conns && Waits(s, ref, o)
    ensures StillWaits(s, DoRemovePending(s, c), ref, o) && StillWaits(s, DoCancel(s, c, id), ref, o)
  {
  }

  lemma LeaveWaits(s: State, c: ConnId, d: Option<ConnId>, ref: Ref, o: UserId)
    requires InRoom(s, c) && (d.Some? ==> d.value in s.conns) && Waits(s, ref, o) && o !in s.rooms[ref].clients
    ensures StillWaits(s, DoLeave(s, c, d), ref, o)
  {
    hide Left, Refs, Dead;
    if Active(s, c) && s.conns[c].room.value == ref { LeftOwner(s.rooms[ref], s.conns, c, s.conns[c].id, d); }
  }

  lemma DetachWaits(s: State, c: ConnId, now: Time, token: Token, ref: Ref, o: UserId)
    requires InRoom(s, c) && Waits(s, ref, o)
    ensures StillWaits(s, DoDetach(s, c, now, token), ref, o)
  {
    hide Disconnected;
    if s.conns[c].room.value == ref { DisconnectedFields(s.rooms[ref], c, s.conns[c].id, s.conns[c].name, now); }
  }

  lemma SuggestWaits(s: State, c: ConnId, id: SuggestionId, track: Track, ref: Ref, o: UserId)
    requires c in s.conns && Waits(s, ref, o)
    ensures StillWaits(s, DoSuggest(s, c, id, track), ref, o)
  {
    hide CleanTrack, SuggestOk;
  }

  lemma ConnWaits(s: State, a: Step, ref: Ref, o: UserId)
    requires Enabled(s, a) && Waits(s, ref, o) && (a.Connect? || a.Measure? || a.Close?)
    ensures StillWaits(s, GuestStep(s, a), ref, o)
  {
  }

  lemma GuestWaits(s: State, a: Step, ref: Ref, o: UserId)
    requires Enabled(s, a) && FromGuest(a) && Waits(s, ref, o) && o !in s.rooms[ref].clients
    ensures StillWaits(s, GuestStep(s, a), ref, o)
  {
    hide Deputy, DoCreate, DoJoin, DoRemovePending, DoCancel, DoLeave, DoDetach, DoSuggest, StillWaits, Waits;
    match a
    case Connect(_, _, _) => ConnWaits(s, a, ref, o);
    case Measure(_, _) => ConnWaits(s, a, ref, o);
    case Close(_) => ConnWaits(s, a, ref, o);
    case Create(c, raw, code, x, token, now) => CreateWaits(s, c, raw, code, x, token, now, ref, o);
    case Join(c, raw, code) => JoinWaits(s, c, raw, code, ref, o);
    case RemovePending(c) => CancelWaits(s, c, s.conns[c].id, ref, o);
    case Cancel(c, id) => CancelWaits(s, c, id, ref, o);
    case Leave(c, d) => LeaveWaits(s, c, d, ref, o);
    case Detach(c, now, token) => DetachWaits(s, c, now, token, ref, o);
    case Suggest(c, id, track) => SuggestWaits(s, c, id, track, ref, o);
  }

  lemma ApproveWaits(s: State, c: ConnId, key: UserId, token: Token, ref: Ref, o: UserId)
    requires InRoom(s, c) && Waits(s, ref, o)
    ensures StillWaits(s, DoApprove(s, c, key, token), ref, o) && StillWaits(s, DoRejectJoin(s, c, key), ref, o)
  {
  }

  lemma KickWaits(s: State, c: ConnId, u: UserId, ref: Ref, o: UserId)
    requires InRoom(s, c) && Waits(s, ref, o) && (u == o && s.conns[c].room == Some(ref) ==> !KickOk(s, c, u))
    ensures StillWaits(s, DoKick(s, c, u), ref, o)
  {
    hide Kicked, Refs, TokensOf;
    if s.conns[c].room.value == ref && u != o { KickedOwner(s.rooms[ref], u); }
  }

  lemma OutcomeWaits(s: State, c: ConnId, id: SuggestionId, now: Time, reason: Str, ref: Ref, o: UserId)
    requires Waits(s, ref, o) && c in s.conns
    ensures InRoom(s, c) ==> StillWaits(s, DoApproveSuggestion(s, c, id, now), ref, o)
    ensures StillWaits(s, DoRejectSuggestion(s, c, id, reason), ref, o)
  {
    hide Resolved, Suggested, Sanitize;
    forall x, n | x in s.rooms && id in s.rooms[x].suggestions
      ensures Resolved(s.rooms[x], id, n).owner == s.rooms[x].owner
              && Resolved(s.rooms[x], id, n).code == s.rooms[x].code
    {
      ResolvedFields(s.rooms[x], id, n);
    }
  }

  lemma TransferWaits(s: State, c: ConnId, u: UserId, ref: Ref, o: UserId)
    requires InRoom(s, c) && Waits(s, ref, o) && (s.conns[c].room == Some(ref) ==> !TransferOk(s, c, u))
    ensures StillWaits(s, DoTransfer(s, c, u), ref, o)
  {
    hide Transferred, Eligible;
  }

  lemma ControlWaits(s: State, c: ConnId, m: Request, now: Time, ref: Ref, o: UserId)
    requires InRoom(s, c) && Waits(s, ref, o)
    ensures StillWaits(s, DoControl(s, c, m, now), ref, o)
  {
    hide Handle;
  }

  lemma HostWaits(s: State, a: Step, ref: Ref, o: UserId)
    requires Enabled(s, a) && FromHost(a) && Waits(s, ref, o) && !Settles(s, a, ref, o)
    ensures StillWaits(s, HostStep(s, a), ref, o)
  {
    hide DoApprove, DoRejectJoin, DoKick, DoTransfer, DoApproveSuggestion, DoRejectSuggestion, DoControl, StillWaits,
      Waits;
    match a
    case Approve(c, key, token) => ApproveWaits(s, c, key, token, ref, o);
    case RejectJoin(c, key) => ApproveWaits(s, c, key, [], ref, o);
    case Kick(c, u) => KickWaits(s, c, u, ref, o);
    case ApproveSuggestion(c, id, now) => OutcomeWaits(s, c, id, now, [], ref, o);
    case RejectSuggestion(c, id, reason) => OutcomeWaits(s, c, id, 0, reason, ref, o);
    case Transfer(c, u) => TransferWaits(s, c, u, ref, o);
    case Control(c, m, now) => ControlWaits(s, c, m, now, ref, o);
  }

  lemma CodesApart(s: State, ref: Ref, other: Ref)
    requires Registered(s, ref) && Registered(s, other) && ref != other
    ensures s.rooms[ref].code != s.rooms[other].code
  {
  }

  lemma ConsumeWaits(s: State, c: ConnId, x: Ref, ref: Ref, o: UserId)
    requires c in s.attempts && x in s.rooms && Waits(s, ref, o)
    requires x == ref && s.attempts[c].session.user == o ==> !Succeeds(s, c, x)
    ensures StillWaits(s, DoConsume(s, c, x), ref, o)
  {
    hide Rejoined;
    if x == ref && Succeeds(s, c, x) {
      RejoinedOwner(s.rooms[ref], Consumed(s, c, x).conns, c, s.attempts[c].session.user);
    }
  }

  lemma ExpireWaits(s: State, x: Session, d: Option<ConnId>, ref: Ref, o: UserId)
    requires x.code in s.registry && s.registry[x.code] in s.rooms && (d.Some? ==> d.value in s.conns)
    requires Waits(s, ref, o) && (x.user == o && s.registry[x.code] == ref ==> o !in s.rooms[ref].away)
    ensures StillWaits(s, DoExpire(s, x, d), ref, o)
  {
    hide Expired, Dead;
    if s.registry[x.code] == ref && x.user != o { ExpiredOwner(s.rooms[ref], s.conns, x.user, d); }
  }

  lemma FailoverWaits(s: State, x: Ref, now: Time, d: Option<ConnId>, ref: Ref, o: UserId)
    requires x in s.rooms && (d.Some? ==> d.value in s.conns) && Waits(s, ref, o)
    ensures StillWaits(s, DoFailover(s, x, now, d), ref, o)
  {
    hide FailedOver, FailoverDue;
    if x == ref && d.Some? { FailedOverFields(s.rooms[ref], s.conns, d.value); }
  }

  lemma DeleteWaits(s: State, x: Ref, ref: Ref, o: UserId)
    requires x in s.rooms && Waits(s, ref, o) && o in s.rooms[ref].away
    ensures StillWaits(s, DoDelete(s, x), ref, o)
  {
    hide ReleaseAll;
    if Registered(s, x) && x != ref { CodesApart(s, ref, x); }
  }

  lemma CloseWaits(s: State, x: Ref, ref: Ref, o: UserId)
    requires Registered(s, x) && Waits(s, ref, o) && x != ref
    ensures StillWaits(s, DoCloseRoom(s, x), ref, o)
  {
    hide ReleaseAll, Refs;
    CodesApart(s, ref, x);
  }

  lemma TokenStepWaits(s: State, a: Step, ref: Ref, o: UserId)
    requires Enabled(s, a) && Waits(s, ref, o)
    requires a.Claim? || a.Lookup? || a.DropToken? || a.Release? || a.Take? || a.ExpireStale?
    ensures StillWaits(s, ServerStep(s, a), ref, o)
  {
    hide Refs, ExpiredTokens, ClaimOk;
  }

  lemma ServerWaits(s: State, a: Step, ref: Ref, o: UserId)
    requires Enabled(s, a) && !FromGuest(a) && !FromHost(a)
    requires Waits(s, ref, o) && o in s.rooms[ref].away && !Settles(s, a, ref, o)
    requires a.CloseRoom? ==> Registered(s, a.ref)
    ensures StillWaits(s, ServerStep(s, a), ref, o)
  {
    hide Deputy, DoClaim, DoLookup, DoRelease, DoTake, Revoke, DoConsume, DoExpire, DoFailover, DoDelete, DoCloseRoom,
      StillWaits;
    match a
    case Consume(c, x) => ConsumeWaits(s, c, x, ref, o);
    case Expire(x, d) => ExpireWaits(s, x, d, ref, o);
    case Failover(x, now, d) => FailoverWaits(s, x, now, d, ref, o);
    case Delete(x) => DeleteWaits(s, x, ref, o);
    case CloseRoom(x) => CloseWaits(s, x, ref, o);
    case _ => TokenStepWaits(s, a, ref, o);
  }

  lemma StepWaits(s: State, a: Step, ref: Ref, o: UserId)
    requires Inv(s) && Enabled(s, a) && Waits(s, ref, o) && !Settles(s, a, ref, o)
    ensures Waits(Next(s, a), ref, o)
  {
    hide Inv, Enabled, GuestStep, HostStep, ServerStep;
    OwnerIsAway(s, ref, o);
    if FromGuest(a) {
      GuestWaits(s, a, ref, o);
    } else if FromHost(a) {
      HostWaits(s, a, ref, o);
    } else {
      if a.CloseRoom? { InvCloses(s, a); }
      ServerWaits(s, a, ref, o);
    }
  }

  lemma InvCloses(s: State, a: Step)
    requires Inv(s) && a.CloseRoom? && Enabled(s, a)
    ensures Registered(s, a.ref)
  {
    hide RoomsOk, ClosingInv, TokensOk;
    ClosingRegistered(s, a.ref);
  }

  // ---- runs ----

  ghost predicate Unsettled(s: State, run: seq<Step>, ref: Ref, o: UserId)
    decreases |run|
  {
    run != [] && Enabled(s, run[0]) ==> !Settles(s, run[0], ref, o) && Unsettled(Next(s, run[0]), run[1..], ref, o)
  }

  /** An owner keeps waiting through any run that does not settle the matter,
      with a reserved seat marked host. */
  lemma {:induction false} OwnerWaits(s: State, run: seq<Step>, ref: Ref, o: UserId)
    requires Inv(s) && Waits(s, ref, o) && Regular(s, run) && Unsettled(s, run, ref, o)
    ensures var t := After(s, run);
            Waits(t, ref, o) && o in t.rooms[ref].away && t.rooms[ref].away[o].isHost
    decreases |run|
  {
    hide Inv, Enabled, Proper, Next, Settles;
    if run == [] {
      OwnerIsAway(s, ref, o);
    } else {
      StepKeeps(s, run[0]);
      StepWaits(s, run[0], ref, o);
      OwnerWaits(Next(s, run[0]), run[1..], ref, o);
    }
  }

  /** c's reconnect gives o the seat, and nobody waits any more. */
  ghost predicate Reseats(s: State, c: ConnId, ref: Ref, o: UserId)
  {
    && c in s.attempts && ref in s.rooms && c in s.conns
    && var q := Consumed(s, c, ref).rooms[ref];
       q.host == Some(c) && q.hostId == Some(o) && q.hostAway.None? && q.owner.None?
  }

  /** An owner whose reconnect succeeds has the seat back, and nobody waits any more. */
  lemma OwnerReturns(s: State, c: ConnId, ref: Ref, o: UserId)
    requires Inv(s) && Waits(s, ref, o) && Returning(s, c, ref) && s.attempts[c].session.user == o
    ensures Reseats(s, c, ref, o)
  {
    hide Inv, RoomsOk, ClosingInv, TokensOk, Rejoined;
    InvParts(s);
    SuccessIsOwn(s, c, ref);
    AttemptMayHost(s, c);
    var t := Consumed(s, c, ref);
    ReturnSound(s, c, ref);
    RejoinedReclaims(s.rooms[ref], t.conns, c, o);
    RejoinedClears(s.rooms[ref], t.conns, c, o);
  }

  lemma ReturnSound(s: State, c: ConnId, ref: Ref)
    requires RoomsOk(s) && Registered(s, ref) && c in s.attempts && c in s.conns
    ensures RoomInv(s.rooms[ref], Consumed(s, c, ref).conns)
  {
    hide LinkInv, RoomInv, Rejoined;
    AgesKeeps(s, ref, Consumed(s, c, ref).conns);
  }

  lemma RejoinedClears(r: Room, conns: Conns, c: ConnId, u: UserId)
    requires c in conns && r.owner == Some(u) && conns[c].allow
    ensures Rejoined(r, conns, c, u).owner.None?
  {
    hide MarkUser, FlagHost;
  }

  // ---- lives ----

  /** A restart keeps who waits. */
  lemma RestartedOwner(s: State, t: State, flushed: Option<Time>, now: Time, ref: Ref, o: UserId)
    requires Restarts(s, t, flushed, now) && Waits(s, ref, o)
    ensures Waits(t, ref, o)
  {
    hide Restored, Snapped;
    var records, tokens, ids, n, nowMs :| BootsTo(s, t, records, tokens, ids, n, flushed, now, nowMs);
    assert Snapped(records[s.rooms[ref].code], s, s.rooms[ref].code);
    RecordedOwner(records[s.rooms[ref].code], s, ref, flushed, now, nowMs);
  }

  lemma RecordedOwner(rec: Record, s: State, ref: Ref, flushed: Option<Time>, now: Time, nowMs: int)
    requires Registered(s, ref) && Snapped(rec, s, s.rooms[ref].code)
    ensures var r, q := s.rooms[ref], Restored(rec, flushed, now, nowMs); q.owner == r.owner && q.code == r.code
  {
    hide RestoredPlay, KeptUsers, Filed, Parted, RestoredAway, SavedAway, LiveRows, Listing, RestoredStamp;
  }

  /** No life of the server settles the matter. */
  ghost predicate NeverSettled(s: State, es: seq<Epoch>, ref: Ref, o: UserId)
    requires Endures(s, es)
    decreases |es|
  {
    es != [] ==> Unsettled(s, es[0].run, ref, o) && NeverSettled(Rebooted(s, es[0]), es[1..], ref, o)
  }

  /** An owner keeps waiting through any number of restarts and any run since. */
  lemma {:induction false} OwnerOutlives(s: State, es: seq<Epoch>, run: seq<Step>, ref: Ref, o: UserId)
    requires Inv(s) && Waits(s, ref, o) && Endures(s, es) && NeverSettled(s, es, ref, o)
    requires Regular(Latest(s, es), run) && Unsettled(Latest(s, es), run, ref, o)
    ensures var t := After(Latest(s, es), run);
            Inv(t) && Waits(t, ref, o) && o in t.rooms[ref].away && t.rooms[ref].away[o].isHost
    decreases |es|
  {
    hide Inv, CanLoad, Recoverable, Booted, Regular, Unsettled, After, Waits;
    if es == [] {
      RunKeeps(s, run);
      OwnerWaits(s, run, ref, o);
    } else {
      var e := es[0];
      LifeKeeps(s, e);
      assert Regular(s, e.run) by { LifeIsRegular(s, e); }
      OwnerWaits(s, e.run, ref, o);
      RebootRestarts(s, e);
      RestartedOwner(After(s, e.run), Rebooted(s, e), e.flushed, e.now, ref, o);
      OwnerOutlives(Rebooted(s, e), es[1..], run, ref, o);
    }
  }

  lemma LifeIsRegular(s: State, e: Epoch)
    requires CanLoad(s, e)
    ensures Regular(s, e.run)
  {
    hide Regular, After, IsSnapshot, Loaded, Numbers;
  }

  /** Owner reclaim across runs and restarts: after a failover hands the seat to the
      one best-placed deputy, the host it replaced - or the owner already waiting -
      stays the owner through any further deputies, disconnects, failovers and
      restarts, and takes the seat back by reconnecting. */
  lemma OwnerReclaims(s: State, ref: Ref, now: Time, d: ConnId, s1: State, es: seq<Epoch>, run: seq<Step>, t: State,
                      c: ConnId, o: UserId)
    requires Reachable(s) && Registered(s, ref) && FailoverDue(s.rooms[ref], now) && Fails(s, ref, now, d, s1)
    requires Some(o) == if s.rooms[ref].owner.Some? then s.rooms[ref].owner else s.rooms[ref].hostId
    requires Endures(s1, es) && NeverSettled(s1, es, ref, o)
    requires Regular(Latest(s1, es), run) && Unsettled(Latest(s1, es), run, ref, o) && t == After(Latest(s1, es), run)
    requires Returning(t, c, ref) && t.attempts[c].session.user == o
    ensures ref in s1.rooms && s1.rooms[ref].host == Some(d) && Reseats(t, c, ref, o)
  {
    hide Reachable, Inv, Next, Regular, After, Unsettled, Succeeds, Consumed, FailoverDue, Enabled, Endures, Latest,
      NeverSettled;
    ReachableIsSound(s);
    StepKeeps(s, Failover(ref, now, Some(d)));
    FailoverRecords(s, ref, now, d, s1);
    OwnerOutlives(s1, es, run, ref, o);
    OwnerReturns(t, c, ref, o);
  }

  /** The failover of ref to deputy d leads from s to s1. */
  ghost predicate Fails(s: State, ref: Ref, now: Time, d: ConnId, s1: State)
  {
    Enabled(s, Failover(ref, now, Some(d))) && s1 == Next(s, Failover(ref, now, Some(d)))
  }

  lemma FailoverRecords(s: State, ref: Ref, now: Time, d: ConnId, s1: State)
    requires Fails(s, ref, now, d, s1) && Registered(s, ref) && FailoverDue(s.rooms[ref], now)
    ensures Registered(s1, ref) && s1.rooms[ref].host == Some(d)
    ensures s1.rooms[ref].owner == if s.rooms[ref].owner.Some? then s.rooms[ref].owner else s.rooms[ref].hostId
  {
    hide Deputy, FailedOver;
    FailedOverFields(s.rooms[ref], s.conns, d);
  }
}
