/** What holds in every reachable state, and across whole runs. */
module Safety {
  import opened Base
  import opened Text
  import opened Tracks
  import opened Playback
  import opened Rooms
  import opened Links
  import opened Lobby
  import opened LobbyRooms
  import opened LobbyLinks
  import opened Tokens
  import opened LobbyRuns
  import opened LobbyTimers
  import opened Runs
  import opened Reboot
  import opened Contents

  /** A state of some regular run of some life of the server. */
  ghost predicate Reachable(s: State)
  {
    exists es, run :: Reaches(es, run, s)
  }

  ghost predicate Reaches(es: seq<Epoch>, run: seq<Step>, s: State)
  {
    Endures(Empty, es) && Regular(Latest(Empty, es), run) && After(Latest(Empty, es), run) == s
  }

  lemma ReachableIsSound(s: State)
    requires Reachable(s)
    ensures Inv(s)
  {
    hide Inv, Regular, Endures, Latest, After;
    var es, run :| Reaches(es, run, s);
    EmptyIsSound();
    RestartsKeep(Empty, es, run);
  }

  lemma ReachableStep(s: State, a: Step)
    requires Reachable(s) && Enabled(s, a) && Proper(s, a)
    ensures Reachable(Next(s, a))
  {
    hide Enabled, Next, Proper, Regular, Endures, Latest, After;
    var es, run :| Reaches(es, run, s);
    RunExtends(Latest(Empty, es), run, a);
    assert Reaches(es, run + [a], Next(s, a));
  }

  lemma EmptyIsReachable()
    ensures Reachable(Empty)
  {
    assert Reaches([], [], Empty);
  }

  lemma ReachableRoom(s: State, ref: Ref)
    requires Reachable(s) && Registered(s, ref)
    ensures RoomInv(s.rooms[ref], s.conns)
  {
    hide Reachable, RegInv, ClosingInv, TokensOk, LinkInv, RoomInv;
    ReachableIsSound(s);
  }

  // ---- host seats and membership ----

  /** The host seat is in exactly one of three states, and a waiting owner is
      someone else with a reserved seat marked host. */
  lemma HostSeats(s: State, ref: Ref)
    requires Reachable(s) && Registered(s, ref) && !Deserted(s.rooms[ref])
    ensures var r := s.rooms[ref];
            && (Seated(r, s.conns) || HostIsAway(r) || Hostless(r, s.conns))
            && !(Seated(r, s.conns) && HostIsAway(r)) && !(Seated(r, s.conns) && Hostless(r, s.conns))
            && !(HostIsAway(r) && Hostless(r, s.conns))
            && (r.owner.Some? ==> r.owner != r.hostId && r.owner.value in r.away && r.away[r.owner.value].isHost)
  {
    hide Reachable, Roster, MailInv;
    ReachableRoom(s, ref);
    HostStatesExclusive(s.rooms[ref], s.conns);
  }

  /** Active and reserved members are apart, at most 100 together, and the user
      list names each of them exactly once with the right flags. */
  lemma Membership(s: State, ref: Ref)
    requires Reachable(s) && Registered(s, ref)
    ensures var r := s.rooms[ref];
            && r.clients.Keys !! r.away.Keys && |r.clients| + |r.away| <= 100
            && (forall i :: 0 <= i < |r.users| ==>
                  && (r.users[i].isConnected <==> r.users[i].id in r.clients)
                  && (r.users[i].isHost <==> r.hostId == Some(r.users[i].id))
                  && (r.users[i].id in r.clients || r.users[i].id in r.away))
            && (forall i, j :: 0 <= i < j < |r.users| ==> r.users[i].id != r.users[j].id)
            && (forall u :: u in r.clients || u in r.away ==> exists i :: 0 <= i < |r.users| && r.users[i].id == u)
  {
    hide Reachable, HostInv, MailInv, WellListed, Listed;
    ReachableRoom(s, ref);
    var r := s.rooms[ref];
    WellListedMeans(r.users, r.clients.Keys, r.hostId);
    forall u | u in r.clients || u in r.away ensures exists i :: 0 <= i < |r.users| && r.users[i].id == u {
      assert u in Listed(r.users);
    }
  }

  /** A reserved seat has exactly one token, unless its expiry is in flight. */
  lemma SeatTokens(s: State, ref: Ref, u: UserId)
    requires Reachable(s) && Registered(s, ref) && u in s.rooms[ref].away
    ensures s.rooms[ref].away[u] in s.expiring ||
            exists t :: t in s.sessions && s.sessions[t].session == s.rooms[ref].away[u]
                        && forall v :: v in s.sessions && s.sessions[v].session.user == u ==> v == t
  {
    hide Reachable;
    ReachableIsSound(s);
    assert s.rooms[ref].away[u].user == u by {
      hide RoomsInv, LinkInv, RegInv, ClosingInv, TokensOk; SeatFiled(s, ref, u);
    }
    hide RoomsOk, ClosingInv, Backed, Carried, Issued, AttemptInv, HistoryInv;
    if s.rooms[ref].away[u] !in s.expiring {
      var t :| t in s.sessions && s.sessions[t].session == s.rooms[ref].away[u];
      assert forall v :: v in s.sessions && s.sessions[v].session.user == u ==> v == t;
    }
  }

  /** Active members own no stored token, and no token stored under any name
      belongs to them. */
  lemma ActiveTokens(s: State, c: ConnId, v: Token)
    requires Reachable(s) && c in s.conns && s.conns[c].room.Some? && v in s.sessions
    ensures s.conns[c].token.Some? && s.conns[c].token.value !in s.sessions
    ensures s.sessions[v].session.user != s.conns[c].id
  {
    hide Reachable, Inv, Departing, Registered, Roster;
    ReachableIsSound(s);
    ActiveFacts(s, c);
    InvTokens(s);
    TokensBacked(s);
    ActiveHasNoToken(s, c, s.conns[c].room.value, v);
  }

  /** The notices kept for an absent member leave room for every outcome still to
      come, and every suggestion's author is still a member. */
  lemma NoticesFit(s: State, ref: Ref, u: UserId)
    requires Reachable(s) && Registered(s, ref) && u in s.rooms[ref].away
    ensures var r := s.rooms[ref];
            && |NoticesIn(r.notices, u)| + |By(r.suggestions, u)| <= 10
            && forall x :: x in r.suggestions ==>
                 r.suggestions[x].author in r.clients || r.suggestions[x].author in r.away
  {
    hide Reachable, Roster, HostInv, By;
    ReachableRoom(s, ref);
  }

  /** An outcome reaches its author: it is queued to the author's open connection,
      or stored with the author's seat. */
  ghost predicate Informed(r: Room, q: Room, conns: Conns, u: UserId, n: Notice)
  {
    || (u in r.clients && r.clients[u] in conns && !conns[r.clients[u]].closed)
    || (u in q.away && NoticesIn(q.notices, u) == NoticesIn(r.notices, u) + [n])
  }

  /** Which outcomes reach their authors: all but those of an author whose
      connection is closed while it still counts as active. Then nothing is stored. */
  lemma OutcomesReachAuthors(s: State, ref: Ref, id: SuggestionId, n: Notice)
    requires Reachable(s) && Registered(s, ref) && id in s.rooms[ref].suggestions
    ensures var r := s.rooms[ref]; var u := r.suggestions[id].author; var q := Resolved(r, id, n);
            && (u in r.clients ==> r.clients[u] in s.conns)
            && (Informed(r, q, s.conns, u, n) <==> !(u in r.clients && s.conns[r.clients[u]].closed))
            && (!Informed(r, q, s.conns, u, n) ==> q.notices == r.notices)
  {
    hide Reachable, Roster, HostInv, MailInv, Resolved;
    var r := s.rooms[ref];
    ReachableRoom(s, ref);
    RosterApart(r);
    ResolvedMail(r, id, n);
    ResolvedFields(r, id, n);
    ReachableClients(s, ref);
    ResolvedQuietly(r, id, n);
  }

  lemma ResolvedQuietly(r: Room, id: SuggestionId, n: Notice)
    requires id in r.suggestions
    ensures r.suggestions[id].author in r.clients ==> Resolved(r, id, n).notices == r.notices
  {
  }

  lemma ReachableClients(s: State, ref: Ref)
    requires Reachable(s) && ref in s.rooms
    ensures forall u :: u in s.rooms[ref].clients ==> s.rooms[ref].clients[u] in s.conns
  {
    hide Reachable, RegInv, RoomsInv, ClosingInv, TokensOk, BackLinked, Applicants, OneHome, Known;
    ReachableIsSound(s);
  }

  /** The loss is real: wherever an active author waits for a decision, the
      connection may close first, and then whatever the host decides is told to
      nobody. */
  lemma OutcomesCanBeLost(s: State, ref: Ref, id: SuggestionId, n: Notice)
    requires Reachable(s) && Registered(s, ref) && id in s.rooms[ref].suggestions
    requires s.rooms[ref].suggestions[id].author in s.rooms[ref].clients
    ensures var u := s.rooms[ref].suggestions[id].author; var c := s.rooms[ref].clients[u];
            && c in s.conns
            && var t := Next(s, Close(c));
               && Reachable(t) && t.rooms == s.rooms && Registered(t, ref)
               && !Informed(t.rooms[ref], Resolved(t.rooms[ref], id, n), t.conns, u, n)
  {
    hide Reachable, Resolved;
    var r := s.rooms[ref];
    var c := r.clients[r.suggestions[id].author];
    ReachableClients(s, ref);
    ReachableStep(s, Close(c));
    OutcomesReachAuthors(Next(s, Close(c)), ref, id, n);
    hide Informed;
  }

  // ---- contents ----

  lemma ReachableInBounds(s: State)
    requires Reachable(s)
    ensures Tidy(s) && InRange(s)
  {
    hide Tidy, InRange, Inv, Regular, Endures, Latest, After;
    var es, run :| Reaches(es, run, s);
    EmptyIsSound();
    EmptyInBounds();
    LivesInBounds(Empty, es, run);
  }

  /** In every reachable state, across restarts, every room's queue has at most
      1000 tracks and 400 KiB, all cleaned, and its position is exact and within a day. */
  lemma PlaybackInRange(s: State, ref: Ref, now: int)
    requires Reachable(s) && ref in s.rooms && s.clock <= now && Clock(now)
    ensures var p := s.rooms[ref].play;
            && |p.queue| <= 1000 && AllStored(p.queue) && WireSize(p.queue) <= 400 * 1024
            && (p.track.Some? ==> Stored(p.track.value)) && (p.playing ==> p.track.Some?) && 0.0 <= p.volume <= 1.0
            && Live(p, now) == Timeline(p, now) && 0 <= Live(p, now) <= MAX_DURATION
  {
    hide Reachable, Tidy, Stored, AllStored, WireSize, Live, Timeline;
    ReachableInBounds(s);
    LiveInRange(s.rooms[ref].play, s.clock, now);
  }

  /** Whatever a host approves can be queued as it is: the track and the author's
      name were cleaned when they came in. */
  lemma SuggestionsAreStored(s: State, ref: Ref, id: SuggestionId)
    requires Reachable(s) && ref in s.rooms && id in s.rooms[ref].suggestions
    ensures var x := s.rooms[ref].suggestions[id]; Stored(x.track.(suggestedBy := x.authorName))
  {
    hide Reachable, InRange, Clean, ValidTrackId, Sanitize;
    ReachableInBounds(s);
    assert Neat(s.rooms[ref]);
  }

  // ---- tokens ----

  /** Every session ever made is in exactly one of three places. */
  lemma SessionsConserved(s: State, x: SessionRef)
    requires Reachable(s)
    ensures x < s.nextSession <==> OnFile(s.sessions, x) || x in s.consumed || x in s.revoked
    ensures !(OnFile(s.sessions, x) && x in s.consumed) && !(OnFile(s.sessions, x) && x in s.revoked)
    ensures !(x in s.consumed && x in s.revoked)
  {
    hide Reachable;
    ReachableIsSound(s);
    hide RoomsOk, ClosingInv, Backed, Separate, Covered, Carried, AttemptInv;
  }

  /** No two reconnects hold the same token or session; a held token stands for
      the session its holder saw; and a claimed token always has a holder. */
  lemma ClaimsExclusive(s: State, c: ConnId, d: ConnId)
    requires Reachable(s) && c in s.attempts && d in s.attempts && c != d
    ensures s.attempts[c].token != s.attempts[d].token && s.attempts[c].ref != s.attempts[d].ref
  {
    hide Reachable;
    ReachableIsSound(s);
    hide RoomsOk, ClosingInv, TokenInv, HistoryInv, AllAttempting, ClaimsHeld;
  }

  lemma ClaimedIsHeld(s: State, v: Token)
    requires Reachable(s) && v in s.sessions
    ensures s.sessions[v].claimed <==> Held(s, v)
  {
    hide Reachable;
    ReachableIsSound(s);
    hide RoomsOk, ClosingInv, TokenInv, HistoryInv, OneHolder;
    if Held(s, v) {
      var c :| c in s.attempts && s.attempts[c].token == v;
      assert Attempting(s, c);
    }
  }

  /** A reconnect that ends without its seat gives its claim back: afterwards
      the token can be claimed by exactly those who could have claimed it at first. */
  lemma FailureReleases(s: State, c: ConnId, e: ConnId, now: Time)
    requires Reachable(s) && c in s.attempts && s.attempts[c].token in s.sessions && e in s.conns
    ensures var t := DoRelease(s, c); var v := s.attempts[c].token;
            && c !in t.attempts && v in t.sessions && t.sessions[v].session == s.sessions[v].session
            && (ClaimOk(t, e, v, now) <==>
                  && s.conns[e].room.None? && s.conns[e].pendingRoom.None? && now - s.sessions[v].session.at <= GRACE
                  && (s.sessions[v].session.isHost ==> s.conns[e].allow))
  {
    hide Reachable, Inv, TokensOk;
    ReachableIsSound(s);
    InvTokens(s);
    HeldIsOwn(s, c);
  }

  lemma HeldIsOwn(s: State, c: ConnId)
    requires TokensOk(s) && c in s.attempts && s.attempts[c].token in s.sessions
    ensures s.sessions[s.attempts[c].token].ref == s.attempts[c].ref
  {
    hide TokenInv, HistoryInv, OneHolder, ClaimsHeld;
    assert Attempting(s, c);
  }

  // ---- nothing spent comes back ----

  /** What a step does to the session table. */
  ghost predicate Evolves(s: State, t: State)
  {
    && s.consumed <= t.consumed && s.revoked <= t.revoked && s.nextSession <= t.nextSession
    && forall v :: v in t.sessions ==>
         (v in s.sessions && t.sessions[v].ref == s.sessions[v].ref) || t.sessions[v].ref == s.nextSession
  }

  lemma LeaveEvolves(s: State, c: ConnId, d: Option<ConnId>, now: Time, spare: Token)
    requires InRoom(s, c) && (d.Some? ==> d.value in s.conns)
    ensures Evolves(s, DoLeave(s, c, d)) && Evolves(s, DoDetach(s, c, now, spare))
  {
    hide Left, Refs, Dead, Disconnected;
  }

  predicate SameTokens(s: State, t: State)
  {
    t.sessions == s.sessions && t.consumed == s.consumed && t.revoked == s.revoked && t.nextSession == s.nextSession
  }

  lemma SameEvolves(s: State, t: State)
    requires SameTokens(s, t)
    ensures Evolves(s, t)
  {
  }

  lemma EntrySame(s: State, c: ConnId, raw: Str, code: Code, ref: Ref, token: Token, now: Time)
    requires c in s.conns
    ensures SameTokens(s, DoCreate(s, c, raw, code, ref, token, now)) && SameTokens(s, DoJoin(s, c, raw, code))
  {
    hide Sanitize, CreateOk, JoinHeard, JoinOk, Opened;
  }

  lemma CancelSame(s: State, c: ConnId, id: UserId)
    requires c in s.conns
    ensures SameTokens(s, DoRemovePending(s, c)) && SameTokens(s, DoCancel(s, c, id))
  {
  }

  lemma SuggestSame(s: State, c: ConnId, id: SuggestionId, track: Track)
    requires c in s.conns
    ensures SameTokens(s, DoSuggest(s, c, id, track))
  {
    hide CleanTrack, SuggestOk, Submitted;
  }

  lemma GuestEvolves(s: State, a: Step)
    requires Enabled(s, a) && FromGuest(a)
    ensures Evolves(s, GuestStep(s, a))
  {
    hide Deputy, DoCreate, DoJoin, DoRemovePending, DoCancel, DoSuggest, DoLeave, DoDetach, Evolves;
    match a
    case Connect(_, _, _) => SameEvolves(s, GuestStep(s, a));
    case Measure(_, _) => SameEvolves(s, GuestStep(s, a));
    case Close(_) => SameEvolves(s, GuestStep(s, a));
    case Create(c, raw, code, ref, token, now) =>
      EntrySame(s, c, raw, code, ref, token, now); SameEvolves(s, GuestStep(s, a));
    case Join(c, raw, code) => EntrySame(s, c, raw, code, 0, [], 0); SameEvolves(s, GuestStep(s, a));
    case RemovePending(c) => CancelSame(s, c, []); SameEvolves(s, GuestStep(s, a));
    case Cancel(c, id) => CancelSame(s, c, id); SameEvolves(s, GuestStep(s, a));
    case Suggest(c, id, track) => SuggestSame(s, c, id, track); SameEvolves(s, GuestStep(s, a));
    case Leave(c, d) => LeaveEvolves(s, c, d, 0, []);
    case Detach(c, now, token) => LeaveEvolves(s, c, None, now, token);
  }

  lemma HostEvolves(s: State, a: Step)
    requires Enabled(s, a) && FromHost(a)
    ensures Evolves(s, HostStep(s, a))
  {
    hide Handle, Suggested, Resolved, Admitted, Kicked, Transferred, Sanitize, Refs, TokensOf;
  }

  lemma ServerEvolves(s: State, a: Step)
    requires Enabled(s, a)
    ensures Evolves(s, ServerStep(s, a))
  {
    hide Deputy, Rejoined, Expired, FailedOver, FailoverDue, Refs, ReleaseAll, ExpiredTokens;
  }

  lemma StepEvolves(s: State, a: Step)
    requires Enabled(s, a)
    ensures Evolves(s, Next(s, a))
  {
    hide Enabled, Evolves, GuestStep, HostStep, ServerStep;
    if FromGuest(a) { GuestEvolves(s, a); } else if FromHost(a) { HostEvolves(s, a); } else { ServerEvolves(s, a); }
  }

  ghost predicate Spent(s: State, x: SessionRef) { x in s.consumed || x in s.revoked }

  lemma {:induction false} SpentForever(s: State, run: seq<Step>, x: SessionRef)
    requires Spent(s, x)
    ensures Spent(After(s, run), x)
    decreases |run|
  {
    hide Enabled, Next;
    if run != [] && Enabled(s, run[0]) {
      StepEvolves(s, run[0]);
      SpentForever(Next(s, run[0]), run[1..], x);
    }
  }

  lemma LostIsSpent(s: State, t: State, v: Token)
    requires Separate(s.sessions) && Issued(s) && Accounted(t) && Evolves(s, t) && v in s.sessions && v !in t.sessions
    ensures Spent(t, s.sessions[v].ref)
  {
    assert !OnFile(t.sessions, s.sessions[v].ref);
  }

  lemma TokenParts(s: State)
    requires Inv(s)
    ensures Separate(s.sessions) && Issued(s) && Accounted(s)
  {
    hide RoomsOk, ClosingInv, Backed, Covered, Carried, AttemptInv, Separate, Issued, Accounted;
  }

  /** A token that a step takes away leaves its session spent. */
  lemma RemovedIsSpent(s: State, a: Step, v: Token)
    requires Inv(s) && Enabled(s, a) && Proper(s, a) && v in s.sessions && v !in Next(s, a).sessions
    ensures Spent(Next(s, a), s.sessions[v].ref)
  {
    hide Enabled, Proper, Next, Inv, Separate, Issued, Accounted, Evolves, Spent;
    StepKeeps(s, a);
    StepEvolves(s, a);
    TokenParts(s);
    TokenParts(Next(s, a));
    LostIsSpent(s, Next(s, a), v);
  }

  /** A reconnect is about to take its seat. */
  ghost predicate Returning(s: State, c: ConnId, ref: Ref)
  {
    c in s.attempts && ref in s.rooms && s.rooms[ref].code == s.attempts[c].session.code && Succeeds(s, c, ref)
  }

  lemma ReturningIsUnspent(s: State, c: ConnId, ref: Ref)
    requires Inv(s) && Returning(s, c, ref)
    ensures !Spent(s, s.attempts[c].ref)
  {
    hide Inv, RoomsOk, ClosingInv, TokensOk;
    InvParts(s);
    SuccessIsOwn(s, c, ref);
    ConsumeTokens(s, c, ref);
  }

  /** Token safety: once any step took a token away - a reconnect consuming it,
      cleanup, a kick, a leave or a closing room - no reconnect ever succeeds
      with that session again, whatever the interleaving. */
  lemma GoneForGood(s: State, a: Step, v: Token, run: seq<Step>, c: ConnId, ref: Ref)
    requires Reachable(s) && Enabled(s, a) && Proper(s, a) && v in s.sessions && v !in Next(s, a).sessions
    requires Regular(Next(s, a), run) && Returning(After(Next(s, a), run), c, ref)
    ensures After(Next(s, a), run).attempts[c].ref != s.sessions[v].ref
  {
    hide Reachable, Inv, Next, Enabled, Proper, Regular, After, Spent, Succeeds;
    ReachableIsSound(s);
    RemovedIsSpent(s, a, v);
    SpentForever(Next(s, a), run, s.sessions[v].ref);
    StepKeeps(s, a);
    RunKeeps(Next(s, a), run);
    ReturningIsUnspent(After(Next(s, a), run), c, ref);
  }
}
