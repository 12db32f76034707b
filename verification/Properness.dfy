/**
 Exactly which steps break the server: the invariant survives a step if and only
 if the step is proper, and a run if and only if every step of it is.
 */
module Properness {
  import opened Base
  import opened Text
  import opened Tracks
  import opened Playback
  import opened Rooms
  import opened Links
  import opened Lobby
  import opened LobbyRooms
  import opened LobbyLinks
  import opened Tokens
  import opened LobbyRuns
  import opened LobbyTimers
  import opened Runs

  // ---- what an improper step breaks ----

  /** Creating a room under an ID that is a member elsewhere gives it two homes. */
  lemma CreateBreaks(s: State, c: ConnId, name: Str, code: Code, ref: Ref, token: Token, now: int)
    requires c in s.conns && ref !in s.rooms && !Newcomer(s, s.conns[c].id)
    ensures !OneHome(Created(s, c, name, code, ref, token, now).rooms)
  {
    var u := s.conns[c].id;
    var t := Created(s, c, name, code, ref, token, now);
    var x :| MemberIn(s.rooms, x, u);
    assert MemberIn(t.rooms, x, u) && MemberIn(t.rooms, ref, u);
  }

  /** Admitting an ID that is a member elsewhere gives it two homes; one with a
      reserved seat here is in both halves of the partition; one active here
      loses its connection's place. */
  lemma AdmitBreaks(s: State, j: ConnId, ref: Ref, key: UserId, token: Token)
    requires Linking(s) && j in s.conns && ref in s.rooms && s.conns[j].room.None? && !Newcomer(s, s.conns[j].id)
    ensures var t := Admit(s, j, ref, key, token);
            !OneHome(t.rooms) || !BackLinked(t.conns, t.rooms) || !Roster(t.rooms[ref])
  {
    var u := s.conns[j].id;
    var t := Admit(s, j, ref, key, token);
    var x :| MemberIn(s.rooms, x, u);
    if x != ref {
      assert MemberIn(t.rooms, x, u) && MemberIn(t.rooms, ref, u);
    } else if u in s.rooms[ref].away {
      assert u in t.rooms[ref].clients.Keys * t.rooms[ref].away.Keys;
    } else {
      ClientPointsBack(s, ref, u);
      var d := s.rooms[ref].clients[u];
      assert t.conns[d] == s.conns[d] && !ActiveIn(t.rooms, ref, u, d);
    }
  }

  lemma ClientPointsBack(s: State, ref: Ref, u: UserId)
    requires Linking(s) && ref in s.rooms && u in s.rooms[ref].clients
    ensures var d := s.rooms[ref].clients[u]; d in s.conns && s.conns[d].id == u && s.conns[d].room == Some(ref)
  {
    hide BackLinked, Applicants, OneHome, Known;
  }

  /** Expiring a seat whose token is stored leaves a token without a seat. */
  lemma ExpireBreaks(s: State, x: Session, ref: Ref, d: Option<ConnId>)
    requires RoomsOk(s) && Backed(s) && ref in s.rooms && x.user in s.rooms[ref].away
             && (d.Some? ==> d.value in s.conns)
    requires !Untokened(s, x.user)
    ensures !Backed(ExpiredIn(s, x, ref, d))
  {
    hide RoomsOk, Expired, Dead;
    var t := ExpiredIn(s, x, ref, d);
    ExpiredFields(s.rooms[ref], s.conns, x.user, d);
    var v :| v in s.sessions && s.sessions[v].session.user == x.user;
    OwnTokens(s, ref, x.user, v);
    SeatFiled(s, ref, x.user);
    assert !Stands(t.sessions[v].session, t.rooms, t.registry);
  }

  lemma ImproperCreate(s: State, a: Step)
    requires Inv(s) && Enabled(s, a) && a.Create? && !Proper(s, a)
    ensures !Inv(Next(s, a))
  {
    hide Sanitize;
    CreateBreaks(s, a.c, Sanitize(a.raw, MAX_USERNAME), a.code, a.ref, a.token, a.nowMs);
    NotLinked(Next(s, a));
    hide Inv, CreateOk, Created;
  }

  lemma NotLinked(t: State)
    ensures !OneHome(t.rooms) || !BackLinked(t.conns, t.rooms) ==> !Inv(t)
  {
    hide RegInv, RoomsInv, ClosingInv, TokensOk, Linked, BackLinked, Applicants, OneHome, Known;
  }

  lemma NotRostered(t: State, ref: Ref)
    requires Registered(t, ref) && !Roster(t.rooms[ref])
    ensures !Inv(t)
  {
    hide RegInv, LinkInv, ClosingInv, TokensOk, Roster, HostInv, MailInv;
    assert RoomsInv(t) ==> RoomInv(t.rooms[ref], t.conns);
  }

  lemma NotBacked(t: State)
    requires !Backed(t)
    ensures !Inv(t)
  {
    hide RoomsOk, ClosingInv, Backed, Separate, Covered, Carried, Issued, AttemptInv, HistoryInv;
  }

  lemma ImproperApprove(s: State, c: ConnId, key: UserId, token: Token)
    requires Inv(s) && InRoom(s, c) && Answers(s, c, key) && Admissible(s, c, key)
    requires !Newcomer(s, s.conns[RoomOf(s, c).pending[key]].id)
    ensures !Inv(Admit(s, RoomOf(s, c).pending[key], s.conns[c].room.value, key, token))
  {
    hide RegInv, RoomsInv, LinkInv, ClosingInv, TokensOk, Newcomer, Roster, OneHome, BackLinked, Admitted;
    var ref := s.conns[c].room.value;
    var j := RoomOf(s, c).pending[key];
    var t := Admit(s, j, ref, key, token);
    HomeIsLive(s, c);
    AdmitBreaks(s, j, ref, key, token);
    AdmittedFields(s.rooms[ref], key, j, s.conns[j].id, s.conns[j].name);
    NotLinked(t);
    if !Roster(t.rooms[ref]) { NotRostered(t, ref); }
  }

  lemma ImproperExpire(s: State, x: Session, d: Option<ConnId>)
    requires Inv(s) && x.code in s.registry && s.registry[x.code] in s.rooms && (d.Some? ==> d.value in s.conns)
    requires x.user in s.rooms[s.registry[x.code]].away && !Untokened(s, x.user)
    ensures !Inv(DoExpire(s, x, d))
  {
    hide Inv, RoomsOk, ClosingInv, TokensOk, Untokened, ExpiredIn, Backed;
    InvParts(s);
    TokensBacked(s);
    ExpireBreaks(s, x, s.registry[x.code], d);
    NotBacked(DoExpire(s, x, d));
  }

  /** An improper step always breaks the invariant. */
  lemma ImproperBreaks(s: State, a: Step)
    requires Inv(s) && Enabled(s, a) && !Proper(s, a)
    ensures !Inv(Next(s, a))
  {
    hide Inv, Newcomer, Untokened, Admit, DoExpire;
    match a
    case Create(_, _, _, _, _, _) => ImproperCreate(s, a);
    case Approve(c, key, token) => ImproperApprove(s, c, key, token);
    case Expire(x, d) => ImproperExpire(s, x, d);
    case _ =>
  }

  /** The exact condition, step by step. */
  lemma SoundIffProper(s: State, a: Step)
    requires Inv(s) && Enabled(s, a)
    ensures Inv(Next(s, a)) <==> Proper(s, a)
  {
    hide Inv, Enabled, Next, Proper;
    if Proper(s, a) { StepKeeps(s, a); } else { ImproperBreaks(s, a); }
  }

  ghost predicate SoundThroughout(s: State, run: seq<Step>)
    decreases |run|
  {
    Inv(s) && (run != [] && Enabled(s, run[0]) ==> SoundThroughout(Next(s, run[0]), run[1..]))
  }

  /** The exact condition over whole runs: the invariant holds in every state of
      a run exactly when nobody in it enters under a taken ID and no expiry takes
      a seat that still has its token. */
  lemma {:induction false} RunSoundIffRegular(s: State, run: seq<Step>)
    requires Inv(s) && Possible(s, run)
    ensures SoundThroughout(s, run) <==> Regular(s, run)
    decreases |run|
  {
    hide Inv, Enabled, Next, Proper;
    if run != [] {
      SoundIffProper(s, run[0]);
      if Proper(s, run[0]) { RunSoundIffRegular(Next(s, run[0]), run[1..]); }
    }
  }

  // ---- the window inside `replaceLiveSession` ----

  /** A guest c and the connected host h of one room with space for an applicant. */
  predicate Window(s: State, c: ConnId, h: ConnId, raw: Str)
  {
    && InRoom(s, c) && Hosting(s, h) && s.conns[h].room == s.conns[c].room && c != h
    && !s.conns[c].closed && s.conns[c].pendingRoom.None? && Sanitize(raw, MAX_USERNAME) != []
    && var r := RoomOf(s, c);
       r.hostId.Some? && s.conns[c].id !in r.pending && |r.clients| + |r.away| < MAX_MEMBERS
       && |r.pending| < MAX_PENDING
  }

  /** The old connection is detached before it is closed; it applies, and is let in. */
  function Intrusion(s: State, c: ConnId, h: ConnId, raw: Str, now: Time, token: Token): seq<Step>
    requires Window(s, c, h, raw)
  {
    [Detach(c, now, token), Join(c, raw, RoomOf(s, c).code), Approve(h, s.conns[c].id, token)]
  }

  lemma WindowDetach(s: State, t: State, c: ConnId, h: ConnId, raw: Str, now: Time, token: Token)
    requires Inv(s) && Window(s, c, h, raw) && t == DoDetach(s, c, now, token)
    ensures var ref := s.conns[c].room.value;
            && Hosting(t, h) && h in s.conns && t.conns[h] == s.conns[h] && t.usedTokens <= s.usedTokens
            && Registered(t, ref) && Ready(t, c)
            && t.conns[c].id == s.conns[c].id && !t.conns[c].closed && t.conns[c].room.None?
            && t.conns[c].pendingRoom.None?
            && s.conns[c].id in t.rooms[ref].away && JoinOk(t.rooms[ref], s.conns[c].id)
            && t.rooms[ref].code == s.rooms[ref].code
  {
    hide Inv, Disconnected, Sanitize, Roster;
    ActiveAlways(s, c);
    TokenIssued(s, c);
    var k := s.conns[c];
    var r := RoomOf(s, c);
    DisconnectedFields(r, c, k.id, k.name, now);
    SidesApart(s, k.room.value);
    CardMinus(r.clients, k.id);
    CardPlus(r.away, k.id, Session(k.id, k.name, r.code, false, now));
  }

  lemma TokenIssued(s: State, c: ConnId)
    requires Inv(s) && c in s.conns && s.conns[c].room.Some?
    ensures s.conns[c].token.Some? && s.conns[c].token.value in s.usedTokens
  {
    hide RoomsOk, ClosingInv, Backed, Separate, Covered, Issued, AttemptInv, HistoryInv;
  }

  /** From every sound state with such a guest, the run is possible, not regular,
      and ends with the invariant broken. */
  lemma WindowBreaks(s: State, c: ConnId, h: ConnId, raw: Str, now: Time, token: Token)
    requires Inv(s) && Window(s, c, h, raw) && token !in s.usedTokens
    ensures var run := Intrusion(s, c, h, raw, now, token);
            Possible(s, run) && !Regular(s, run) && !Inv(After(s, run))
  {
    hide Inv, Window, Sanitize, DoDetach, Joined;
    var run := Intrusion(s, c, h, raw, now, token);
    WindowOpen(s, c, h, raw);
    var ref := s.conns[c].room.value;
    var t1 := Next(s, run[0]);
    assert t1 == DoDetach(s, c, now, token);
    WindowDetach(s, t1, c, h, raw, now, token);
    DoDetachKeeps(s, c, now, token);
    var t2 := Next(t1, run[1]);
    assert t2 == Joined(t1, c, Sanitize(raw, MAX_USERNAME), ref);
    JoinKeeps(t1, c, Sanitize(raw, MAX_USERNAME), ref);
    assert Enabled(t2, run[2]) && !Proper(t2, run[2]) by {
      WindowApproval(t1, t2, c, h, ref, Sanitize(raw, MAX_USERNAME), token);
    }
    ImproperBreaks(t2, run[2]);
    ThreeSteps(s, run);
  }

  lemma WindowOpen(s: State, c: ConnId, h: ConnId, raw: Str)
    requires Window(s, c, h, raw)
    ensures InRoom(s, c) && Sanitize(raw, MAX_USERNAME) != [] && c != h && h in s.conns
            && s.conns[h].room == s.conns[c].room
  {
    hide Sanitize;
  }

  lemma DoDetachKeeps(s: State, c: ConnId, now: Time, token: Token)
    requires Inv(s) && InRoom(s, c)
    ensures Inv(DoDetach(s, c, now, token))
  {
    hide Inv, Departing, Roster;
    ActiveAlways(s, c);
    DetachKeeps(s, c, now);
  }

  lemma WindowApproval(t1: State, t2: State, c: ConnId, h: ConnId, ref: Ref, name: Str, token: Token)
    requires ref in t1.rooms && Hosting(t1, h) && t1.conns[h].room == Some(ref) && c in t1.conns && c != h
    requires !t1.conns[c].closed && t1.conns[c].room.None? && token !in t1.usedTokens
    requires t1.conns[c].id in t1.rooms[ref].away && JoinOk(t1.rooms[ref], t1.conns[c].id)
    requires t2 == Joined(t1, c, name, ref)
    ensures Enabled(t2, Approve(h, t1.conns[c].id, token)) && !Proper(t2, Approve(h, t1.conns[c].id, token))
  {
    var u := t1.conns[c].id;
    assert Answers(t2, h, u) && Admissible(t2, h, u);
    assert MemberIn(t2.rooms, ref, u);
  }

  lemma ThreeSteps(s: State, run: seq<Step>)
    requires |run| == 3 && Enabled(s, run[0]) && Enabled(Next(s, run[0]), run[1])
    requires Enabled(Next(Next(s, run[0]), run[1]), run[2]) && !Proper(Next(Next(s, run[0]), run[1]), run[2])
    ensures Possible(s, run) && !Regular(s, run) && After(s, run) == Next(Next(Next(s, run[0]), run[1]), run[2])
  {
    hide Enabled, Next, Proper;
    var t1 := Next(s, run[0]);
    var t2 := Next(t1, run[1]);
    var t3 := Next(t2, run[2]);
    assert run[1..][0] == run[1] && run[1..][1..] == run[2..] && run[2..][0] == run[2] && run[2..][1..] == [];
    assert Possible(t3, []) && After(t3, []) == t3;
    assert Possible(t2, run[2..]) && !Regular(t2, run[2..]) && After(t2, run[2..]) == t3;
    assert Possible(t1, run[1..]) && !Regular(t1, run[1..]) && After(t1, run[1..]) == t3;
  }
}
