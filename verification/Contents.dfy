/**
 What the server stores stays within its bounds: in every state of every life
 of the server every name is clean, every pending suggestion can be queued, and
 every room's position, queue and volume are in range.
 */
module Contents {
  import opened Base
  import opened Text
  import opened Tracks
  import opened Playback
  import opened Rooms
  import opened Records
  import opened Restart
  import opened Links
  import opened Lobby
  import opened LobbyRooms
  import opened Tokens
  import opened LobbyRuns
  import opened Runs
  import opened Steering
  import opened Snapshots
  import opened RestartSafety
  import opened Reboot

  predicate Named(name: Str) { Clean(name, MAX_USERNAME) }

  predicate AllNamed(us: seq<UserInfo>) { forall x :: x in us ==> Named(x.name) }

  /** The seats' and the user list's names, and the suggestions still open. */
  predicate Neat(r: Room)
  {
    && (forall x :: x in r.suggestions ==> Stored(r.suggestions[x].track) && Named(r.suggestions[x].authorName))
    && (forall u :: u in r.away ==> Named(r.away[u].name))
    && AllNamed(r.users)
  }

  ghost predicate Tidy(s: State)
  {
    && (forall c :: c in s.conns ==> Named(s.conns[c].name))
    && (forall ref :: ref in s.rooms ==> Neat(s.rooms[ref]))
    && (forall v :: v in s.sessions ==> Named(s.sessions[v].session.name))
    && (forall c :: c in s.attempts ==> Named(s.attempts[c].session.name))
  }

  /** Every room's playback is in range at the server's clock. */
  ghost predicate InRange(s: State)
  {
    0 <= s.clock && forall ref :: ref in s.rooms ==> PlayInv(s.rooms[ref].play, s.clock)
  }

  // ---- playback ----

  lemma SteeredInRange(s: State, a: Step, t: State, ref: Ref)
    requires Tidy(s) && InRange(s) && Steered(s, a, t, ref)
    ensures PlayInv(t.rooms[ref].play, t.clock)
  {
    hide PlayInv, Apply, Clean, ValidTrackId, Sanitize;
    if a.Control? {
      ApplyKeepsInv(s.rooms[ref].play, Playback.Host(a.m, s.conns[a.c].rtt), s.clock, a.nowMs);
    } else {
      var x := s.rooms[ref].suggestions[a.id];
      assert Neat(s.rooms[ref]);
      assert Stored(x.track.(suggestedBy := x.authorName));
      ApplyKeepsInv(s.rooms[ref].play, Playback.Suggest(x.track.(suggestedBy := x.authorName)), s.clock, a.nowMs);
    }
  }

  lemma SameInRange(p: Play, q: Play, t: int, now: int)
    requires PlayInv(p, t) && t <= now && SamePlayback(p, q)
    ensures PlayInv(q, now)
  {
    hide QueueOk, Stored;
  }

  lemma SilenceInRange(now: int)
    requires Clock(now)
    ensures PlayInv(Silence.(lastUpdate := now), now)
  {
    assert WireSize([]) == 0;
  }

  lemma StepInRange(s: State, a: Step)
    requires Tidy(s) && InRange(s) && Enabled(s, a)
    ensures InRange(Next(s, a))
  {
    hide Tidy, Enabled, Next, PlayInv, Steered, SamePlayback, Clock;
    StepPlays(s, a);
    var t := Next(s, a);
    forall ref | ref in t.rooms ensures PlayInv(t.rooms[ref].play, t.clock) {
      if ref !in s.rooms {
        SilenceInRange(t.clock);
      } else if Steered(s, a, t, ref) {
        SteeredInRange(s, a, t, ref);
      } else {
        SameInRange(s.rooms[ref].play, t.rooms[ref].play, s.clock, t.clock);
      }
    }
  }

  // ---- names and suggestions, room by room ----

  lemma {:induction false} ListNamed(us: seq<UserInfo>, u: UserId, connected: bool, host: Option<UserId>)
    requires AllNamed(us)
    ensures AllNamed(WithoutUser(us, u)) && AllNamed(MarkUser(us, u, connected)) && AllNamed(FlagHost(us, host))
  {
    hide Named;
    if us != [] { ListNamed(us[1..], u, connected, host); }
  }

  lemma AssignNeat(r: Room, conns: Conns, c: Option<ConnId>)
    requires Neat(r) && (c.Some? ==> c.value in conns)
    ensures Neat(AssignHost(r, conns, c))
  {
    hide Named, Stored, AllNamed, FlagHost;
    ListNamed(r.users, [], false, if c.Some? then Some(conns[c.value].id) else None);
  }

  lemma ForgetNeat(r: Room, u: UserId)
    requires Neat(r)
    ensures Neat(Forget(r, u))
  {
    hide Named, Stored, AllNamed, WithoutUser;
    ListNamed(r.users, u, false, None);
  }

  lemma LeftNeat(r: Room, conns: Conns, c: ConnId, u: UserId, d: Option<ConnId>)
    requires Neat(r) && (d.Some? ==> d.value in conns)
    ensures Neat(Left(r, conns, c, u, d))
  {
    hide Named, Stored, AllNamed, Forget, AssignHost;
    var q := r.(clients := r.clients - {u}, pending := r.pending - {u}, away := r.away - {u});
    ForgetNeat(q, u);
    AssignNeat(Forget(q, u), conns, d);
    hide Neat;
  }

  lemma ExpiredNeat(r: Room, conns: Conns, u: UserId, d: Option<ConnId>)
    requires Neat(r) && (d.Some? ==> d.value in conns)
    ensures Neat(Expired(r, conns, u, d))
  {
    hide Named, Stored, AllNamed, Forget, AssignHost;
    var q := r.(away := r.away - {u});
    ForgetNeat(q, u);
    AssignNeat(Forget(q, u), conns, d);
    hide Neat;
  }

  lemma KickedNeat(r: Room, u: UserId)
    requires Neat(r)
    ensures Neat(Kicked(r, u))
  {
    hide Named, Stored, AllNamed, Forget;
    ForgetNeat(if u in r.clients then r.(clients := r.clients - {u}) else r.(away := r.away - {u}), u);
  }

  lemma SeatNeat(r: Room, conns: Conns, c: ConnId)
    requires Neat(r) && c in conns
    ensures Neat(Transferred(r, conns, c)) && Neat(FailedOver(r, conns, c))
  {
    hide Named, Stored, AllNamed, AssignHost;
    AssignNeat(r.(owner := None), conns, Some(c));
    AssignNeat(r.(owner := if r.owner.None? then r.hostId else r.owner), conns, Some(c));
  }

  lemma RejoinedNeat(r: Room, conns: Conns, c: ConnId, u: UserId)
    requires Neat(r) && c in conns
    ensures Neat(Rejoined(r, conns, c, u))
  {
    hide Named, Stored, AllNamed, AssignHost, MarkUser;
    ListNamed(r.users, u, true, None);
    var q := r.(clients := r.clients[u := c], away := r.away - {u}, users := MarkUser(r.users, u, true));
    assert Neat(q);
    AssignNeat(q, conns, Some(c));
  }

  lemma DisconnectedNeat(r: Room, c: ConnId, u: UserId, name: Str, now: Time)
    requires Neat(r) && Named(name)
    ensures Neat(Disconnected(r, c, u, name, now))
  {
    hide Named, Stored, AllNamed, MarkUser;
    ListNamed(r.users, u, false, None);
  }

  lemma AdmittedNeat(r: Room, key: UserId, c: ConnId, u: UserId, name: Str)
    requires Neat(r) && Named(name)
    ensures Neat(Admitted(r, key, c, u, name))
  {
    hide Named, Stored;
  }

  lemma ResolvedNeat(r: Room, id: SuggestionId, n: Notice, p: Play)
    requires Neat(r) && id in r.suggestions
    ensures Neat(Resolved(r, id, n)) && Neat(Resolved(r, id, n).(play := p))
  {
    hide Named, Stored, AllNamed;
  }

  lemma SignedNeat(r: Room, id: SuggestionId)
    requires Neat(r) && id in r.suggestions
    ensures Neat(Signed(r, id))
  {
    hide AllNamed, ValidTrackId, Sanitize;
  }

  lemma SubmittedNeat(r: Room, id: SuggestionId, u: UserId, name: Str, raw: Track)
    requires Neat(r) && Named(name) && CleanTrack(raw).Some?
    ensures Neat(Submitted(r, Suggestion(id, u, name, CleanTrack(raw).value)))
  {
    hide Named, Stored, AllNamed, CleanTrack;
    CleanTrackStores(raw);
  }

  // ---- step by step ----

  /** Names stay, or are clean. */
  ghost predicate Renames(s: State, t: State)
  {
    && (forall c :: c in t.conns ==> (c in s.conns && t.conns[c].name == s.conns[c].name) || Named(t.conns[c].name))
    && (forall v :: v in t.sessions ==>
          (v in s.sessions && t.sessions[v].session == s.sessions[v].session) || Named(t.sessions[v].session.name))
    && (forall c :: c in t.attempts ==>
          (c in s.attempts && t.attempts[c].session == s.attempts[c].session) || Named(t.attempts[c].session.name))
  }

  lemma TidySame(s: State, t: State)
    requires Tidy(s) && t.rooms == s.rooms && Renames(s, t)
    ensures Tidy(t)
  {
    hide Neat, Named;
  }

  lemma TidyPut(s: State, t: State, ref: Ref, q: Room)
    requires Tidy(s) && t.rooms == s.rooms[ref := q] && Neat(q) && Renames(s, t)
    ensures Tidy(t)
  {
    hide Neat, Named;
  }

  lemma NameIsClean(raw: Str)
    ensures Named(Sanitize(raw, MAX_USERNAME)) && Named([])
  {
    SanitizeIsClean(raw, MAX_USERNAME);
  }

  lemma CreateTidy(s: State, c: ConnId, raw: Str, code: Code, ref: Ref, token: Token, now: int)
    requires Tidy(s) && c in s.conns
    ensures Tidy(DoCreate(s, c, raw, code, ref, token, now))
  {
    hide Named, Sanitize, CreateOk, Tidy;
    NameIsClean(raw);
    var t := DoCreate(s, c, raw, code, ref, token, now);
    if CreateOk(s, c, raw, code) { TidyPut(s, t, ref, t.rooms[ref]); }
  }

  /** The same seats, list and suggestions. */
  lemma SameNeat(r: Room, q: Room)
    requires Neat(r) && q.suggestions == r.suggestions && q.away == r.away && q.users == r.users
    ensures Neat(q)
  {
    hide Named, Stored, AllNamed;
  }

  lemma TidyRoom(s: State, ref: Ref)
    requires Tidy(s) && ref in s.rooms
    ensures Neat(s.rooms[ref])
  {
    hide Neat, Named;
  }

  lemma JoinTidy(s: State, c: ConnId, raw: Str, code: Code)
    requires Tidy(s) && c in s.conns
    ensures Tidy(DoJoin(s, c, raw, code))
  {
    hide Named, Sanitize, JoinOk, Tidy, Neat;
    NameIsClean(raw);
    var t := DoJoin(s, c, raw, code);
    if JoinHeard(s, c, raw, code) {
      var ref := s.registry[code];
      TidyRoom(s, ref);
      SameNeat(s.rooms[ref], t.rooms[ref]);
      TidyPut(s, t, ref, t.rooms[ref]);
    }
  }

  lemma WithdrawTidy(s: State, c: ConnId, ref: Ref, key: UserId)
    requires Tidy(s) && ref in s.rooms
    ensures Tidy(Withdrawn(s, c, ref, key))
  {
    hide Named, Tidy, Neat;
    TidyRoom(s, ref);
    var t := Withdrawn(s, c, ref, key);
    SameNeat(s.rooms[ref], t.rooms[ref]);
    TidyPut(s, t, ref, t.rooms[ref]);
  }

  lemma RemovePendingTidy(s: State, c: ConnId)
    requires Tidy(s) && c in s.conns
    ensures Tidy(DoRemovePending(s, c))
  {
    hide Named, Tidy, Neat, Withdrawn;
    var k := s.conns[c];
    if k.pendingRoom.Some? {
      if k.pendingRoom.value in s.rooms { WithdrawTidy(s, c, k.pendingRoom.value, k.id); }
      TidySame(s, PutConn(s, c, k.(pendingRoom := None)));
    }
  }

  lemma CancelTidy(s: State, c: ConnId, id: UserId)
    requires Tidy(s) && c in s.conns
    ensures Tidy(DoCancel(s, c, id))
  {
    hide Named, Tidy, Neat, DoRemovePending;
    RemovePendingTidy(s, c);
    RemovePendingFacts(s, c);
    var u := DoRemovePending(s, c);
    if s.conns[c].room.None? { TidySame(u, DoCancel(s, c, id)); }
  }

  lemma LeaveTidy(s: State, c: ConnId, d: Option<ConnId>)
    requires Tidy(s) && InRoom(s, c) && (d.Some? ==> d.value in s.conns)
    ensures Tidy(DoLeave(s, c, d))
  {
    hide Named, Tidy, Neat, Left, Dead, Refs, Renames;
    var ref := s.conns[c].room.value;
    var t := DoLeave(s, c, d);
    if Active(s, c) {
      TidyRoom(s, ref);
      LeftNeat(s.rooms[ref], s.conns, c, s.conns[c].id, d);
      TidyPut(s, t, ref, t.rooms[ref]) by { LeaveRenames(s, c, d); }
    } else {
      LeaveRenames(s, c, d);
      TidySame(s, t);
    }
  }

  lemma LeaveRenames(s: State, c: ConnId, d: Option<ConnId>)
    requires InRoom(s, c) && (d.Some? ==> d.value in s.conns)
    ensures Renames(s, DoLeave(s, c, d))
  {
    hide Named, Left, Dead, Refs, Renames, ClearRoom;
    FewerNames(s, DoLeave(s, c, d), c, s.conns[c].room.value);
  }

  lemma FewerNames(s: State, t: State, c: ConnId, ref: Ref)
    requires t.conns == ClearRoom(s.conns, c, ref) && t.attempts == s.attempts
    requires forall v :: v in t.sessions ==> v in s.sessions && t.sessions[v] == s.sessions[v]
    ensures Renames(s, t)
  {
    hide Named;
  }

  lemma ConnNamed(s: State, c: ConnId)
    requires Tidy(s) && c in s.conns
    ensures Named(s.conns[c].name)
  {
    hide Named, Neat;
  }

  lemma DetachTidy(s: State, c: ConnId, now: Time, token: Token)
    requires Tidy(s) && InRoom(s, c)
    ensures Tidy(DoDetach(s, c, now, token))
  {
    hide Named, Tidy, Neat, Disconnected;
    var ref := s.conns[c].room.value;
    var t := DoDetach(s, c, now, token);
    if Active(s, c) {
      TidyRoom(s, ref);
      ConnNamed(s, c);
      DisconnectedNeat(s.rooms[ref], c, s.conns[c].id, s.conns[c].name, now);
      DisconnectedFields(s.rooms[ref], c, s.conns[c].id, s.conns[c].name, now);
      TidyPut(s, t, ref, t.rooms[ref]);
    } else {
      TidySame(s, t);
    }
  }

  lemma SuggestTidy(s: State, c: ConnId, id: SuggestionId, track: Track)
    requires Tidy(s) && c in s.conns
    ensures Tidy(DoSuggest(s, c, id, track))
  {
    hide Named, Tidy, Neat, CleanTrack, SuggestOk, Submitted;
    var t := DoSuggest(s, c, id, track);
    if t != s {
      var ref := s.conns[c].room.value;
      TidyRoom(s, ref);
      ConnNamed(s, c);
      SubmittedNeat(s.rooms[ref], id, s.conns[c].id, s.conns[c].name, track);
      TidyPut(s, t, ref, t.rooms[ref]);
    }
  }

  lemma ConnTidy(s: State, a: Step)
    requires Tidy(s) && Enabled(s, a) && (a.Connect? || a.Measure? || a.Close?)
    ensures Tidy(GuestStep(s, a))
  {
    hide Named, Tidy;
    NameIsClean([]);
    TidySame(s, GuestStep(s, a));
  }

  lemma GuestTidy(s: State, a: Step)
    requires Tidy(s) && Enabled(s, a) && FromGuest(a)
    ensures Tidy(GuestStep(s, a))
  {
    hide Deputy, Clock, Tidy, DoCreate, DoJoin, DoRemovePending, DoCancel, DoLeave, DoDetach, DoSuggest;
    match a
    case Connect(_, _, _) => ConnTidy(s, a);
    case Measure(_, _) => ConnTidy(s, a);
    case Close(_) => ConnTidy(s, a);
    case Create(c, raw, code, x, token, now) => CreateTidy(s, c, raw, code, x, token, now);
    case Join(c, raw, code) => JoinTidy(s, c, raw, code);
    case RemovePending(c) => RemovePendingTidy(s, c);
    case Cancel(c, id) => CancelTidy(s, c, id);
    case Leave(c, d) => LeaveTidy(s, c, d);
    case Detach(c, now, token) => DetachTidy(s, c, now, token);
    case Suggest(c, id, track) => SuggestTidy(s, c, id, track);
  }

  lemma AdmitTidy(s: State, j: ConnId, ref: Ref, key: UserId, token: Token)
    requires Tidy(s) && j in s.conns && ref in s.rooms
    ensures Tidy(Admit(s, j, ref, key, token))
  {
    hide Named, Tidy, Neat, Admitted;
    TidyRoom(s, ref);
    ConnNamed(s, j);
    var t := Admit(s, j, ref, key, token);
    AdmittedNeat(s.rooms[ref], key, j, s.conns[j].id, s.conns[j].name);
    TidyPut(s, t, ref, t.rooms[ref]);
  }

  lemma AnswerTidy(s: State, c: ConnId, key: UserId, token: Token)
    requires Tidy(s) && InRoom(s, c)
    ensures Tidy(DoApprove(s, c, key, token)) && Tidy(DoRejectJoin(s, c, key))
  {
    hide Tidy, Withdrawn, Admit, Hosting;
    if Answers(s, c, key) {
      WithdrawTidy(s, RoomOf(s, c).pending[key], s.conns[c].room.value, key);
      AdmitTidy(s, RoomOf(s, c).pending[key], s.conns[c].room.value, key, token);
    }
  }

  lemma KickTidy(s: State, c: ConnId, u: UserId)
    requires Tidy(s) && InRoom(s, c)
    ensures Tidy(DoKick(s, c, u))
  {
    hide Named, Tidy, Neat, Kicked, Refs, TokensOf;
    if KickOk(s, c, u) {
      var ref := s.conns[c].room.value;
      var t := DoKick(s, c, u);
      TidyRoom(s, ref);
      KickedNeat(s.rooms[ref], u);
      TidyPut(s, t, ref, t.rooms[ref]);
    }
  }

  lemma TransferTidy(s: State, c: ConnId, u: UserId)
    requires Tidy(s) && InRoom(s, c)
    ensures Tidy(DoTransfer(s, c, u))
  {
    hide Named, Tidy, Neat, Transferred;
    if TransferOk(s, c, u) {
      var ref := s.conns[c].room.value;
      var t := DoTransfer(s, c, u);
      TidyRoom(s, ref);
      SeatNeat(s.rooms[ref], s.conns, s.rooms[ref].clients[u]);
      TidyPut(s, t, ref, t.rooms[ref]);
    }
  }

  lemma ApprovalTidy(s: State, c: ConnId, id: SuggestionId, now: int)
    requires Tidy(s) && InRoom(s, c)
    ensures Tidy(DoApproveSuggestion(s, c, id, now))
  {
    hide Named, Tidy, Neat, Suggested, Resolved, Signed;
    var t := DoApproveSuggestion(s, c, id, now);
    if t != s {
      var ref := s.conns[c].room.value;
      var x := s.rooms[ref].suggestions[id];
      TidyRoom(s, ref);
      ResolvedNeat(s.rooms[ref], id, Approved(id, x.track.(suggestedBy := x.authorName)), t.rooms[ref].play);
      SignedNeat(s.rooms[ref], id);
      TidyPut(s, t, ref, t.rooms[ref]);
    }
  }

  lemma RejectionTidy(s: State, c: ConnId, id: SuggestionId, reason: Str)
    requires Tidy(s) && c in s.conns
    ensures Tidy(DoRejectSuggestion(s, c, id, reason))
  {
    hide Named, Tidy, Neat, Sanitize, Resolved;
    var t := DoRejectSuggestion(s, c, id, reason);
    if t != s {
      var ref := s.conns[c].room.value;
      TidyRoom(s, ref);
      ResolvedNeat(s.rooms[ref], id, Rejected(id, Sanitize(reason, 200)), s.rooms[ref].play);
      TidyPut(s, t, ref, t.rooms[ref]);
    }
  }

  lemma ControlTidy(s: State, c: ConnId, m: Request, now: int)
    requires Tidy(s) && InRoom(s, c)
    ensures Tidy(DoControl(s, c, m, now))
  {
    hide Named, Tidy, Neat, Handle;
    var t := DoControl(s, c, m, now);
    var ref := s.conns[c].room.value;
    TidyRoom(s, ref);
    SameNeat(s.rooms[ref], t.rooms[ref]);
    TidyPut(s, t, ref, t.rooms[ref]);
  }

  lemma HostTidy(s: State, a: Step)
    requires Tidy(s) && Enabled(s, a) && FromHost(a)
    ensures Tidy(HostStep(s, a))
  {
    hide Clock, Tidy, DoApprove, DoRejectJoin, DoKick, DoTransfer, DoApproveSuggestion, DoRejectSuggestion, DoControl;
    match a
    case Approve(c, key, token) => AnswerTidy(s, c, key, token);
    case RejectJoin(c, key) => AnswerTidy(s, c, key, []);
    case Kick(c, u) => KickTidy(s, c, u);
    case Transfer(c, u) => TransferTidy(s, c, u);
    case ApproveSuggestion(c, id, now) => ApprovalTidy(s, c, id, now);
    case RejectSuggestion(c, id, reason) => RejectionTidy(s, c, id, reason);
    case Control(c, m, now) => ControlTidy(s, c, m, now);
  }

  lemma SessionNamed(s: State, v: Token)
    requires Tidy(s) && v in s.sessions
    ensures Named(s.sessions[v].session.name)
  {
    hide Named, Neat;
  }

  lemma ClaimTidy(s: State, c: ConnId, v: Token, now: Time)
    requires Tidy(s) && c in s.conns
    ensures Tidy(DoClaim(s, c, v, now))
  {
    hide Named, Tidy;
    if ClaimOk(s, c, v, now) { SessionNamed(s, v); }
    TidySame(s, DoClaim(s, c, v, now));
  }

  lemma ConsumeTidy(s: State, c: ConnId, ref: Ref)
    requires Tidy(s) && c in s.attempts && ref in s.rooms
    ensures Tidy(DoConsume(s, c, ref))
  {
    hide Named, Tidy, Neat, Rejoined;
    var t := DoConsume(s, c, ref);
    if Succeeds(s, c, ref) {
      TidyRoom(s, ref);
      AttemptNamed(s, c);
      RejoinedNeat(s.rooms[ref], t.conns, c, s.attempts[c].session.user);
      TidyPut(s, t, ref, t.rooms[ref]);
    } else {
      TidySame(s, t);
    }
  }

  lemma AttemptNamed(s: State, c: ConnId)
    requires Tidy(s) && c in s.attempts
    ensures Named(s.attempts[c].session.name)
  {
    hide Named, Neat;
  }

  lemma ExpireTidy(s: State, x: Session, d: Option<ConnId>)
    requires Tidy(s) && x.code in s.registry && s.registry[x.code] in s.rooms && (d.Some? ==> d.value in s.conns)
    ensures Tidy(DoExpire(s, x, d))
  {
    hide Named, Tidy, Neat, Expired, Dead;
    var ref := s.registry[x.code];
    var t := DoExpire(s, x, d);
    if x.user in s.rooms[ref].away {
      TidyRoom(s, ref);
      ExpiredNeat(s.rooms[ref], s.conns, x.user, d);
      TidyPut(s, t, ref, t.rooms[ref]);
    } else {
      TidySame(s, t);
    }
  }

  lemma FailoverTidy(s: State, ref: Ref, now: Time, d: Option<ConnId>)
    requires Tidy(s) && ref in s.rooms && (d.Some? ==> d.value in s.conns)
    ensures Tidy(DoFailover(s, ref, now, d))
  {
    hide Named, Tidy, Neat, FailedOver, FailoverDue;
    var t := DoFailover(s, ref, now, d);
    if t != s {
      TidyRoom(s, ref);
      SeatNeat(s.rooms[ref], s.conns, d.value);
      TidyPut(s, t, ref, t.rooms[ref]);
    }
  }

  lemma DeleteTidy(s: State, ref: Ref)
    requires Tidy(s) && ref in s.rooms
    ensures Tidy(DoDelete(s, ref))
  {
    hide Named, Tidy, Neat, Registered;
    var t := DoDelete(s, ref);
    TidyRoom(s, ref);
    SameNeat(s.rooms[ref], t.rooms[ref]);
    if t != s { TidyPut(s, t, ref, t.rooms[ref]); }
  }

  lemma CloseTidy(s: State, ref: Ref)
    requires Tidy(s) && ref in s.rooms
    ensures Tidy(DoCloseRoom(s, ref))
  {
    hide Named, Tidy, Registered, Refs;
    var t := DoCloseRoom(s, ref);
    TidyRoom(s, ref);
    assert Neat(t.rooms[ref]) by { hide Stored, AllNamed; }
    hide Neat;
    TidyPut(s, t, ref, t.rooms[ref]);
  }

  lemma TokenStepTidy(s: State, a: Step)
    requires Tidy(s) && Enabled(s, a) && (a.Lookup? || a.DropToken? || a.ExpireStale?)
    ensures Tidy(ServerStep(s, a))
  {
    hide Refs, Tidy, Named;
    TidySame(s, ServerStep(s, a));
  }

  lemma ReleaseTidy(s: State, c: ConnId, now: Time)
    requires Tidy(s)
    ensures Tidy(DoTake(s, now)) && (c in s.attempts ==> Tidy(DoRelease(s, c)))
  {
    hide Refs, Tidy, Named, ExpiredTokens;
    TidySame(s, DoTake(s, now));
    if c in s.attempts { TidySame(s, DoRelease(s, c)); }
  }

  lemma ServerTidy(s: State, a: Step)
    requires Tidy(s) && Enabled(s, a) && !FromGuest(a) && !FromHost(a)
    ensures Tidy(ServerStep(s, a))
  {
    hide Deputy, DoClaim, DoLookup, DoRelease, DoTake, Revoke, DoConsume, DoExpire, DoFailover, DoDelete, DoCloseRoom,
      Tidy;
    match a
    case Claim(c, v, now) => ClaimTidy(s, c, v, now);
    case Consume(c, ref) => ConsumeTidy(s, c, ref);
    case Expire(x, d) => ExpireTidy(s, x, d);
    case Failover(ref, now, d) => FailoverTidy(s, ref, now, d);
    case Delete(ref) => DeleteTidy(s, ref);
    case CloseRoom(ref) => CloseTidy(s, ref);
    case Release(c) => ReleaseTidy(s, c, 0);
    case Take(now) => ReleaseTidy(s, 0, now);
    case Lookup(_) => TokenStepTidy(s, a);
    case DropToken(_) => TokenStepTidy(s, a);
    case ExpireStale(_) => TokenStepTidy(s, a);
  }

  lemma StepTidy(s: State, a: Step)
    requires Tidy(s) && Enabled(s, a)
    ensures Tidy(Next(s, a))
  {
    hide Enabled, Tidy, GuestStep, HostStep, ServerStep;
    if FromGuest(a) { GuestTidy(s, a); } else if FromHost(a) { HostTidy(s, a); } else { ServerTidy(s, a); }
  }

  // ---- runs and restarts ----

  /** Whatever steps are taken, proper or not, everything stored stays in bounds. */
  lemma {:induction false} RunInBounds(s: State, run: seq<Step>)
    requires Tidy(s) && InRange(s)
    ensures Tidy(After(s, run)) && InRange(After(s, run))
    decreases |run|
  {
    hide Tidy, InRange, Enabled, Next;
    if run != [] && Enabled(s, run[0]) {
      StepTidy(s, run[0]);
      StepInRange(s, run[0]);
      RunInBounds(Next(s, run[0]), run[1..]);
    }
  }

  lemma {:induction false} PartedNamed(us: seq<UserInfo>, gone: set<UserId>)
    requires AllNamed(us)
    ensures AllNamed(ListAfter(us, gone))
  {
    hide Named;
    if us != [] {
      PartedNamed(us[1..], gone);
      assert Parted(us)[1..] == Parted(us[1..]);
    }
  }

  lemma SeatNamed(s: State, ref: Ref, u: UserId, x: Session, flushed: Option<Time>, now: Time)
    requires Tidy(s) && Holds(s, ref, u, x, flushed, now)
    ensures Named(x.name)
  {
    hide Named, Shift;
    var r := s.rooms[ref];
    TidyRoom(s, ref);
    if u in r.clients { ConnNamed(s, r.clients[u]); }
    hide Tidy, Stored, AllNamed;
  }

  /** What a record brings back is as tidy as what it was taken of. */
  lemma RestoredNeat(s: State, ref: Ref, rec: Record, flushed: Option<Time>, now: Time, nowMs: int)
    requires Inv(s) && Peopled(s, ref) && Snapped(rec, s, s.rooms[ref].code) && Tidy(s)
    ensures Neat(Restored(rec, flushed, now, nowMs))
  {
    hide Inv, Tidy, Holds, RoomInv, Restored, Borne, Snapped, Stored, Named, AllNamed, Recorded, Roster, MailInv,
      SeatAfter, KeptUsers, Parted,
      GoneFrom, Back, RolesBorne;
    var r := s.rooms[ref];
    var q := Restored(rec, flushed, now, nowMs);
    TidyRoom(s, ref);
    RestoredMembers(s, ref, rec, flushed, now, nowMs);
    forall u | u in q.away ensures Named(q.away[u].name) { SeatNamed(s, ref, u, q.away[u], flushed, now); }
    SeatRecorded(s, ref, rec);
    InvRoom(s, ref);
    RoomParts(r, s.conns);
    MembersSurvive(rec, r, s.conns, StoredRows(s.sessions, r.code), flushed, now, nowMs);
    PartedNamed(r.users, GoneFrom(r, StoredRows(s.sessions, r.code)));
  }

  lemma RestoredInRange(s: State, ref: Ref, rec: Record, flushed: Option<Time>, now: Time, nowMs: int)
    requires Registered(s, ref) && Snapped(rec, s, s.rooms[ref].code) && InRange(s) && s.clock <= nowMs && Clock(nowMs)
    ensures var p, q := s.rooms[ref].play, Restored(rec, flushed, now, nowMs).play;
            PlayInv(q, nowMs) && q.revision == p.revision && q.trackRevision == p.trackRevision
  {
    hide PlayInv, RestoredPlay, RestoredAway, KeptUsers, RestoredStamp, Filed, SavedAway, Listing, LiveRows, Live,
      HashInput;
    PlaySurvives(s.rooms[ref].play, s.clock, nowMs);
  }

  lemma BootTidy(s: State, records: map<Code, Record>, tokens: map<Token, Session>, ids: map<Token, SessionRef>, n: nat,
                 flushed: Option<Time>, now: Time, nowMs: int)
    requires Inv(s) && Recoverable(s) && IsSnapshot(records, s) && Loaded(records, flushed, now, tokens)
             && ids.Keys == tokens.Keys
    requires Tidy(s)
    ensures Tidy(Booted(s, records, tokens, ids, n, flushed, now, nowMs))
  {
    hide Inv, Recoverable, Peopled, Snapped, Loaded, Holds, Restored, Neat, Named, Bears, RolesBorne;
    var t := Booted(s, records, tokens, ids, n, flushed, now, nowMs);
    RecoverableMeans(s);
    SnapshotReturns(s, records, tokens, flushed, now);
    forall ref | ref in t.rooms ensures Neat(t.rooms[ref]) {
      assert Snapped(records[s.rooms[ref].code], s, s.rooms[ref].code);
      RestoredNeat(s, ref, records[s.rooms[ref].code], flushed, now, nowMs);
    }
    forall v | v in t.sessions ensures Named(t.sessions[v].session.name) {
      var ref, u :| Bears(s, v, ref, u) && Holds(s, ref, u, tokens[v], flushed, now);
      SeatNamed(s, ref, u, tokens[v], flushed, now);
    }
  }

  lemma BootInRange(s: State, records: map<Code, Record>, tokens: map<Token, Session>, ids: map<Token, SessionRef>,
                    n: nat, flushed: Option<Time>, now: Time, nowMs: int)
    requires IsSnapshot(records, s) && ids.Keys == tokens.Keys && InRange(s) && s.clock <= nowMs && Clock(nowMs)
    ensures var t := Booted(s, records, tokens, ids, n, flushed, now, nowMs);
            InRange(t) && forall k :: Counted(s, k) ==> Counted(t, k)
  {
    hide Snapped, Restored, PlayInv;
    var t := Booted(s, records, tokens, ids, n, flushed, now, nowMs);
    forall ref | ref in t.rooms
      ensures PlayInv(t.rooms[ref].play, nowMs)
      ensures t.rooms[ref].play.revision == s.rooms[ref].play.revision
              && t.rooms[ref].play.trackRevision == s.rooms[ref].play.trackRevision
    {
      assert Snapped(records[s.rooms[ref].code], s, s.rooms[ref].code);
      RestoredInRange(s, ref, records[s.rooms[ref].code], flushed, now, nowMs);
    }
  }

  /** In every state of every life of the server everything stored is in bounds. */
  lemma {:induction false} LivesInBounds(s: State, es: seq<Epoch>, run: seq<Step>)
    requires Inv(s) && Tidy(s) && InRange(s) && Endures(s, es)
    ensures Tidy(After(Latest(s, es), run)) && InRange(After(Latest(s, es), run))
    decreases |es|
  {
    hide Inv, Tidy, InRange, Recoverable, IsSnapshot, Loaded, Booted, Regular, After;
    if es == [] {
      RunInBounds(s, run);
    } else {
      var e := es[0];
      var u := After(s, e.run);
      RunKeeps(s, e.run);
      RunInBounds(s, e.run);
      RestartIsSound(u, e.records, e.tokens, e.ids, e.n, e.flushed, e.now, e.nowMs);
      BootTidy(u, e.records, e.tokens, e.ids, e.n, e.flushed, e.now, e.nowMs);
      BootInRange(u, e.records, e.tokens, e.ids, e.n, e.flushed, e.now, e.nowMs);
      LivesInBounds(Rebooted(s, e), es[1..], run);
    }
  }

  lemma EmptyInBounds()
    ensures Tidy(Empty) && InRange(Empty)
  {
  }

  // ---- revisions ----

  /** No room has published more than n times, and its track is not newer. */
  ghost predicate Counted(s: State, n: nat)
  {
    forall ref :: ref in s.rooms ==> s.rooms[ref].play.trackRevision <= s.rooms[ref].play.revision <= n
  }

  lemma StepCounts(s: State, a: Step, n: nat)
    requires Counted(s, n) && Enabled(s, a) && n + 1 < TWO64
    ensures Counted(Next(s, a), n + 1)
  {
    hide Enabled, Next, Hosting, Apply, Clock;
    StepPlays(s, a);
    var t := Next(s, a);
    forall ref | ref in t.rooms ensures t.rooms[ref].play.trackRevision <= t.rooms[ref].play.revision <= n + 1 {
      if ref in s.rooms && Steered(s, a, t, ref) {
        SteeredCounts(s, a, t, ref);
      }
    }
  }

  lemma SteeredCounts(s: State, a: Step, t: State, ref: Ref)
    requires Steered(s, a, t, ref) && s.rooms[ref].play.revision + 1 < TWO64
    requires s.rooms[ref].play.trackRevision <= s.rooms[ref].play.revision
    ensures t.rooms[ref].play.trackRevision <= t.rooms[ref].play.revision <= s.rooms[ref].play.revision + 1
  {
    hide Apply;
    if a.Control? {
      ApplyCounts(s.rooms[ref].play, Playback.Host(a.m, s.conns[a.c].rtt), a.nowMs);
    } else {
      var x := s.rooms[ref].suggestions[a.id];
      ApplyCounts(s.rooms[ref].play, Playback.Suggest(x.track.(suggestedBy := x.authorName)), a.nowMs);
    }
  }

  lemma {:induction false} RunCounts(s: State, run: seq<Step>, n: nat)
    requires Counted(s, n) && n + |run| < TWO64
    ensures Counted(After(s, run), n + |run|)
    decreases |run|
  {
    hide Counted, Enabled, Next;
    if run != [] && Enabled(s, run[0]) {
      StepCounts(s, run[0], n);
      RunCounts(Next(s, run[0]), run[1..], n + 1);
    } else {
      CountMore(s, n, n + |run|);
    }
  }

  lemma CountMore(s: State, n: nat, k: nat)
    requires Counted(s, n) && n <= k
    ensures Counted(s, k)
  {
  }

  function Lifetime(es: seq<Epoch>): nat { if es == [] then 0 else |es[0].run| + Lifetime(es[1..]) }

  /** Revisions never wrap around while the server takes fewer than 2^64 steps in
      all its lives: none exceeds their number, and no track is newer than its room. */
  lemma {:induction false} LivesCount(s: State, es: seq<Epoch>, run: seq<Step>, n: nat)
    requires Tidy(s) && InRange(s) && Inv(s) && Counted(s, n) && Endures(s, es) && n + Lifetime(es) + |run| < TWO64
    ensures Counted(After(Latest(s, es), run), n + Lifetime(es) + |run|)
    decreases |es|
  {
    hide Inv, Tidy, InRange, Counted, Recoverable, IsSnapshot, Loaded, Booted, Regular, After;
    if es == [] {
      RunCounts(s, run, n);
    } else {
      var e := es[0];
      var u := After(s, e.run);
      RunKeeps(s, e.run);
      RunInBounds(s, e.run);
      RunCounts(s, e.run, n);
      RestartIsSound(u, e.records, e.tokens, e.ids, e.n, e.flushed, e.now, e.nowMs);
      BootTidy(u, e.records, e.tokens, e.ids, e.n, e.flushed, e.now, e.nowMs);
      BootInRange(u, e.records, e.tokens, e.ids, e.n, e.flushed, e.now, e.nowMs);
      LivesCount(Rebooted(s, e), es[1..], run, n + |e.run|);
    }
  }
}
