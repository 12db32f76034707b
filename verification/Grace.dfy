/**
 Grace periods over restarts: how long a member or the host has been away counts
 the time the server was up, from each start to the last flush, and nothing else.
 */
module Grace {
  import opened Base
  import opened Text
  import opened Tracks
  import opened Playback
  import opened Rooms
  import opened Links
  import opened Lobby
  import opened LobbyRooms
  import opened Tokens
  import opened LobbyRuns
  import opened LobbyTimers
  import opened Runs
  import opened Seats
  import opened Records
  import opened Restart
  import opened Snapshots
  import opened RestartSafety
  import opened Reboot

  // ---- one restart ----

  /** When u's seat was reserved; nothing if u was connected. */
  function Since(r: Room, u: UserId): Option<Time>
    requires u in r.clients || u in r.away
  {
    if u in r.clients then None else Some(r.away[u].at)
  }

  /** t is what a restart makes of s. */
  ghost predicate Restarts(s: State, t: State, flushed: Option<Time>, now: Time)
  {
    exists records, tokens, ids, n, nowMs :: BootsTo(s, t, records, tokens, ids, n, flushed, now, nowMs)
  }

  ghost predicate BootsTo(s: State, t: State, records: map<Code, Record>, tokens: map<Token, Session>,
                          ids: map<Token, SessionRef>, n: nat, flushed: Option<Time>, now: Time, nowMs: int)
  {
    IsSnapshot(records, s) && ids.Keys == tokens.Keys && t == Booted(s, records, tokens, ids, n, flushed, now, nowMs)
  }

  lemma RestartReseats(s: State, t: State, flushed: Option<Time>, now: Time)
    requires Inv(s) && Recoverable(s) && Restarts(s, t, flushed, now)
    ensures Reseated(s, t, flushed, now)
  {
    hide Inv, Recoverable, Reseated, AllPeopled, RolesBorne, IsSnapshot, Booted;
    var records, tokens, ids, n, nowMs :| BootsTo(s, t, records, tokens, ids, n, flushed, now, nowMs);
    RecoverableMeans(s);
    BootReseats(s, records, tokens, ids, n, flushed, now, nowMs);
  }

  /** The name u goes by in the room: the connection's, or the seat's. */
  function NameOf(r: Room, conns: Conns, u: UserId): Str
    requires u in r.clients || u in r.away
  {
    if u !in r.clients then r.away[u].name else if r.clients[u] in conns then conns[r.clients[u]].name else []
  }

  /** After a restart every seat is as old as at the last flush, and a member who
      was connected then has only just gone; each bears the name and the role its
      member had. Exactly those with a token have one. */
  lemma RestartedSeat(s: State, t: State, flushed: Option<Time>, now: Time, ref: Ref, u: UserId)
    requires Inv(s) && Recoverable(s) && Restarts(s, t, flushed, now) && Registered(s, ref)
    ensures ref in t.rooms && (u in t.rooms[ref].away <==> Borne(s, ref, u))
    ensures u in t.rooms[ref].away ==>
              && (u in s.rooms[ref].clients || u in s.rooms[ref].away)
              && t.rooms[ref].away[u].at == Shift(Since(s.rooms[ref], u), flushed, now)
              && t.rooms[ref].away[u].user == u && t.rooms[ref].away[u].name == NameOf(s.rooms[ref], s.conns, u)
              && t.rooms[ref].away[u].code == s.rooms[ref].code
              && t.rooms[ref].away[u].isHost ==
                 if u in s.rooms[ref].clients then s.rooms[ref].hostId == Some(u) else s.rooms[ref].away[u].isHost
  {
    hide Inv, Recoverable, Restarts, RoomInv, RolesBorne, HasToken, Shift;
    RestartReseats(s, t, flushed, now);
    if u in s.rooms[ref].away { SeatUser(s, ref, u); }
    assert u in t.rooms[ref].away ==> Holds(s, ref, u, t.rooms[ref].away[u], flushed, now);
  }

  /** What a restart makes of a room, apart from its seats: nobody is connected, roles
      and suggestions are kept, those who come back stay listed in order, and
      playback goes on from the record. */
  ghost predicate RoomKept(r: Room, q: Room, nowMs: int)
  {
    && q.code == r.code && q.hostId == r.hostId && q.owner == r.owner && q.suggestions == r.suggestions
    && q.host.None? && q.clients == map[] && q.pending == map[] && q.notices == map[]
    && q.users == ListAfter(r.users, (r.clients.Keys + r.away.Keys) - q.away.Keys)
    && q.play == RestoredPlay(r.play.(lastHostSeq := 0), nowMs)
  }

  lemma RestartedRoom(s: State, t: State, flushed: Option<Time>, now: Time, ref: Ref)
    requires Inv(s) && Recoverable(s) && Restarts(s, t, flushed, now) && Registered(s, ref)
    ensures ref in t.rooms && RoomKept(s.rooms[ref], t.rooms[ref], t.clock)
  {
    hide Inv, Recoverable, Restored, Snapped, RoomKept, AllPeopled, Peopled;
    var records, tokens, ids, n, nowMs :| BootsTo(s, t, records, tokens, ids, n, flushed, now, nowMs);
    RecoverableMeans(s);
    PeopledAt(s, ref);
    assert Snapped(records[s.rooms[ref].code], s, s.rooms[ref].code);
    RecordedRoom(s, ref, records[s.rooms[ref].code], flushed, now, nowMs);
  }

  lemma PeopledAt(s: State, ref: Ref)
    requires AllPeopled(s) && Registered(s, ref)
    ensures Peopled(s, ref)
  {
    hide Peopled;
  }

  lemma RecordedRoom(s: State, ref: Ref, rec: Record, flushed: Option<Time>, now: Time, nowMs: int)
    requires Inv(s) && Registered(s, ref) && Peopled(s, ref) && Snapped(rec, s, s.rooms[ref].code)
    ensures RoomKept(s.rooms[ref], Restored(rec, flushed, now, nowMs), nowMs)
  {
    hide Inv, Peopled, Roster, MailInv, SeatAfter, RoomInv, Back, ListAfter, RestoredAway, KeptUsers, Parted, Gone, Filed,
      SavedAway, Listing, LiveRows, RestoredStamp, RestoredPlay;
    var r := s.rooms[ref];
    SeatRecorded(s, ref, rec);
    InvRoom(s, ref);
    RoomParts(r, s.conns);
    MembersSurvive(rec, r, s.conns, StoredRows(s.sessions, r.code), flushed, now, nowMs);
  }

  /** The moment the host left moves along in the same way. */
  lemma RestartedStamp(s: State, t: State, flushed: Option<Time>, now: Time, ref: Ref)
    requires Inv(s) && Recoverable(s) && Restarts(s, t, flushed, now) && Registered(s, ref)
    ensures ref in t.rooms
    ensures s.rooms[ref].hostAway.Some? ==> t.rooms[ref].hostAway == Some(Shift(s.rooms[ref].hostAway, flushed, now))
    ensures var h := s.rooms[ref].hostId;
            s.rooms[ref].hostAway.None? && h.Some? && h.value in t.rooms[ref].away ==>
              t.rooms[ref].hostAway == Some(t.rooms[ref].away[h.value].at)
  {
    hide Inv, Recoverable, Restored, Snapped, Shift;
    var records, tokens, ids, n, nowMs :| BootsTo(s, t, records, tokens, ids, n, flushed, now, nowMs);
    assert Snapped(records[s.rooms[ref].code], s, s.rooms[ref].code);
    RecordedStamp(records[s.rooms[ref].code], s, ref, flushed, now, nowMs);
  }

  lemma RecordedStamp(rec: Record, s: State, ref: Ref, flushed: Option<Time>, now: Time, nowMs: int)
    requires Registered(s, ref) && Snapped(rec, s, s.rooms[ref].code)
    ensures var r, q := s.rooms[ref], Restored(rec, flushed, now, nowMs);
            && (r.hostAway.Some? ==> q.hostAway == Some(Shift(r.hostAway, flushed, now)))
            && (r.hostAway.None? && r.hostId.Some? && r.hostId.value in q.away ==>
                 q.hostAway == Some(q.away[r.hostId.value].at))
  {
    hide RestoredPlay, KeptUsers, Filed, Parted, RestoredAway, SavedAway, LiveRows, Listing;
  }

  lemma RebootRestarts(s: State, e: Epoch)
    requires CanLoad(s, e)
    ensures Restarts(After(s, e.run), Rebooted(s, e), e.flushed, e.now)
  {
    hide Regular, After, IsSnapshot, Loaded, Taken, Booted;
    assert BootsTo(After(s, e.run), Rebooted(s, e), e.records, e.tokens, e.ids, e.n, e.flushed, e.now, e.nowMs);
  }

  // ---- lives ----

  /** Time the server was up, from each start to the last flush. */
  function Uptime(es: seq<Epoch>, start: Time): Time
    decreases |es|
  {
    if es == [] then 0 else Credited(es[0].flushed, es[0].now) - start + Uptime(es[1..], es[0].now)
  }

  function LastStart(es: seq<Epoch>, start: Time): Time
    decreases |es|
  {
    if es == [] then start else LastStart(es[1..], es[0].now)
  }

  /** u's seat in ref stays reserved through the lives: nothing ends it, and each
      flush finds its token. */
  ghost predicate Reserved(s: State, es: seq<Epoch>, ref: Ref, u: UserId)
    requires Endures(s, es)
    decreases |es|
  {
    && ref in s.rooms && u in s.rooms[ref].away
    && (es != [] ==>
          && Undismissed(s, es[0].run, ref, u) && Borne(After(s, es[0].run), ref, u)
          && Reserved(Rebooted(s, es[0]), es[1..], ref, u))
  }

  lemma LifeKeeps(s: State, e: Epoch)
    requires Inv(s) && CanReboot(s, e)
    ensures Inv(After(s, e.run)) && Inv(Rebooted(s, e))
  {
    hide Inv, Recoverable, IsSnapshot, Loaded, Numbers, Booted, Regular, After;
    RunKeeps(s, e.run);
    RestartIsSound(After(s, e.run), e.records, e.tokens, e.ids, e.n, e.flushed, e.now, e.nowMs);
  }

  /** One life: the seat ages by its uptime. */
  lemma SeatAgesOnce(s: State, e: Epoch, ref: Ref, u: UserId, start: Time)
    requires Inv(s) && CanReboot(s, e) && ref in s.rooms && u in s.rooms[ref].away
    requires Undismissed(s, e.run, ref, u) && Borne(After(s, e.run), ref, u)
    ensures var t := Rebooted(s, e);
            && ref in t.rooms && u in t.rooms[ref].away
            && e.now - t.rooms[ref].away[u].at == start - s.rooms[ref].away[u].at + Credited(e.flushed, e.now) - start
            && t.rooms[ref].away[u] == s.rooms[ref].away[u].(at := t.rooms[ref].away[u].at)
  {
    hide Inv, Recoverable, IsSnapshot, Loaded, Numbers, Booted, Regular, After, Undismissed, Borne, Shift, Credited;
    LifeKeeps(s, e);
    SeatStays(s, e.run, ref, u);
    RebootRestarts(s, e);
    SeatHome(After(s, e.run), ref, u);
    SeatUser(After(s, e.run), ref, u);
    RestartedSeat(After(s, e.run), Rebooted(s, e), e.flushed, e.now, ref, u);
    ShiftAge(Some(s.rooms[ref].away[u].at), e.flushed, e.now);
  }

  /** For the seat's owner the restart is free: the age found at the restart is the
      age at the flush, less at most the millisecond that storing its time loses. */
  lemma OutageIsFree(s: State, e: Epoch, ref: Ref, u: UserId, flush: Time)
    requires Inv(s) && CanReboot(s, e) && ref in s.rooms && u in s.rooms[ref].away
    requires Undismissed(s, e.run, ref, u) && Borne(After(s, e.run), ref, u)
    requires e.flushed == Some(Stamp(flush)) && flush <= e.now
    ensures var t := Rebooted(s, e);
            && ref in t.rooms && u in t.rooms[ref].away
            && flush - s.rooms[ref].away[u].at - MILLI < e.now - t.rooms[ref].away[u].at <= flush - s.rooms[ref].away[u].at
  {
    hide Inv, CanLoad, Recoverable, Booted, Undismissed, Borne, After, Credited, Stamp;
    SeatAgesOnce(s, e, ref, u, 0);
    StampLoss(flush, e.now);
  }

  lemma SeatHome(s: State, ref: Ref, u: UserId)
    requires Inv(s) && ref in s.rooms && u in s.rooms[ref].away
    ensures Registered(s, ref) && u !in s.rooms[ref].clients
  {
    hide RegInv, RoomsInv, LinkInv, ClosingInv, TokensOk;
    SeatFiled(s, ref, u);
  }

  /** Through any number of restarts a reserved seat ages by the time the server
      was up, and by nothing else; name, room and role stay. */
  lemma {:induction false} SeatAgeIsUptime(s: State, es: seq<Epoch>, ref: Ref, u: UserId, start: Time)
    requires Inv(s) && Endures(s, es) && Reserved(s, es, ref, u)
    ensures var t := Latest(s, es);
            && Inv(t) && ref in t.rooms && u in t.rooms[ref].away
            && LastStart(es, start) - t.rooms[ref].away[u].at == start - s.rooms[ref].away[u].at + Uptime(es, start)
            && t.rooms[ref].away[u] == s.rooms[ref].away[u].(at := t.rooms[ref].away[u].at)
    decreases |es|
  {
    hide Inv, CanLoad, Recoverable, Booted, Undismissed, Borne, After, Credited;
    if es != [] {
      var e := es[0];
      LifeKeeps(s, e);
      SeatAgesOnce(s, e, ref, u, start);
      SeatAgeIsUptime(Rebooted(s, e), es[1..], ref, u, e.now);
    }
  }

  /** The grace period is a time of service: t after any number of restarts, cleanup
      takes u's token exactly when the server was up for longer than the grace
      period since u's seat was reserved, and until then it can be claimed. */
  lemma GraceIsUptime(s: State, es: seq<Epoch>, run: seq<Step>, ref: Ref, u: UserId, start: Time, v: Token, c: ConnId,
                      t: Time)
    requires Inv(s) && Endures(s, es) && Reserved(s, es, ref, u)
    requires Regular(Latest(s, es), run) && Undismissed(Latest(s, es), run, ref, u)
    requires var e := After(Latest(s, es), run); v in e.sessions && e.sessions[v].session.user == u && c in e.conns
    ensures var e := After(Latest(s, es), run);
            var age := start - s.rooms[ref].away[u].at + Uptime(es, start) + (t - LastStart(es, start));
            && (v in ExpiredTokens(e, t) <==> age > GRACE)
            && (ClaimOk(e, c, v, t) <==>
                  && age <= GRACE && !e.sessions[v].claimed && e.conns[c].room.None? && e.conns[c].pendingRoom.None?
                  && (e.sessions[v].session.isHost ==> e.conns[c].allow))
  {
    hide Inv, Endures, Latest, Regular, Undismissed, After, Uptime, LastStart;
    SeatAgeIsUptime(s, es, ref, u, start);
    var l := Latest(s, es);
    RunKeeps(l, run);
    SeatStays(l, run, ref, u);
    TokenIsSeat(After(l, run), ref, u, v);
    hide Reserved;
  }

  /** A member's token stands for the member's seat. */
  lemma TokenIsSeat(s: State, ref: Ref, u: UserId, v: Token)
    requires Inv(s) && ref in s.rooms && u in s.rooms[ref].away && v in s.sessions && s.sessions[v].session.user == u
    ensures s.sessions[v].session == s.rooms[ref].away[u]
  {
    hide Inv, RoomsOk, ClosingInv, TokensOk;
    InvParts(s);
    TokensBacked(s);
    SeatFiled(s, ref, u);
    OwnTokens(s, ref, u, v);
    assert Stands(s.sessions[v].session, s.rooms, s.registry);
  }

  /** c's reconnect for u's seat in ref succeeds, and the server is then in state f. */
  ghost predicate ComesBack(e: State, c: ConnId, ref: Ref, u: UserId, f: State)
  {
    Enabled(e, Consume(c, ref)) && Succeeds(e, c, ref) && e.attempts[c].session.user == u && f == Next(e, Consume(c, ref))
  }

  /** c is the active member u of ref, under this name. */
  predicate BackAs(f: State, c: ConnId, ref: Ref, u: UserId, name: Str)
  {
    && c in f.conns && f.conns[c].id == u && f.conns[c].name == name && f.conns[c].room == Some(ref)
    && f.conns[c].token.Some? && f.conns[c].token.value !in f.sessions
    && ref in f.rooms && u in f.rooms[ref].clients && f.rooms[ref].clients[u] == c && u !in f.rooms[ref].away
  }

  lemma ReturnConsumes(e: State, c: ConnId, ref: Ref, u: UserId, f: State)
    requires ComesBack(e, c, ref, u, f)
    ensures c in e.attempts && ref in e.rooms && c in e.conns && f == Consumed(e, c, ref) && Succeeds(e, c, ref)
    ensures e.attempts[c].session.user == u && e.rooms[ref].code == e.attempts[c].session.code
  {
    hide Consumed, Deputy;
  }

  lemma ConsumedIsBack(e: State, c: ConnId, ref: Ref)
    requires c in e.attempts && ref in e.rooms && c in e.conns
    ensures BackAs(Consumed(e, c, ref), c, ref, e.attempts[c].session.user, e.attempts[c].session.name)
  {
    hide Rejoined;
    var f := Consumed(e, c, ref);
    RejoinedFields(e.rooms[ref], f.conns, c, e.attempts[c].session.user);
  }

  /** A successful return restores the seat's own ID and name. */
  lemma ReturnTakesSeat(e: State, c: ConnId, ref: Ref, u: UserId, f: State)
    requires Inv(e) && ComesBack(e, c, ref, u, f)
    ensures ref in e.rooms && u in e.rooms[ref].away && BackAs(f, c, ref, u, e.rooms[ref].away[u].name)
  {
    hide Inv, Consumed, ComesBack, BackAs, RoomsOk, ClosingInv, TokensOk;
    ReturnConsumes(e, c, ref, u, f);
    InvParts(e);
    SuccessIsOwn(e, c, ref);
    ConsumedIsBack(e, c, ref);
  }

  /** u's seat stays reserved from s on, through the lives and the last run. */
  ghost predicate StaysReserved(s: State, es: seq<Epoch>, run: seq<Step>, ref: Ref, u: UserId)
  {
    && Endures(s, es) && Reserved(s, es, ref, u)
    && Regular(Latest(s, es), run) && Undismissed(Latest(s, es), run, ref, u)
  }

  lemma SeatKeepsName(s: State, es: seq<Epoch>, run: seq<Step>, ref: Ref, u: UserId)
    requires Inv(s) && StaysReserved(s, es, run, ref, u)
    ensures var e := After(Latest(s, es), run);
            && Inv(e) && ref in s.rooms && u in s.rooms[ref].away && ref in e.rooms && u in e.rooms[ref].away
            && e.rooms[ref].away[u].name == s.rooms[ref].away[u].name
  {
    hide Inv, Endures, Latest, Regular, Undismissed, After;
    SeatAgeIsUptime(s, es, ref, u, 0);
    RunKeeps(Latest(s, es), run);
    SeatStays(Latest(s, es), run, ref, u);
  }

  /** Whoever comes back comes back as themselves: after any number of restarts, and
      whatever others did meanwhile, a successful return to u's seat has u's ID and
      the name u had when the seat was reserved. */
  lemma ReturnKeepsName(s: State, es: seq<Epoch>, run: seq<Step>, ref: Ref, u: UserId, c: ConnId, f: State)
    requires Inv(s) && StaysReserved(s, es, run, ref, u) && ComesBack(After(Latest(s, es), run), c, ref, u, f)
    ensures ref in s.rooms && u in s.rooms[ref].away && BackAs(f, c, ref, u, s.rooms[ref].away[u].name)
  {
    hide Inv, Endures, Reserved, Regular, Undismissed, Latest, After, ComesBack, BackAs;
    SeatKeepsName(s, es, run, ref, u);
    ReturnTakesSeat(After(Latest(s, es), run), c, ref, u, f);
  }

  /** The same from the moment c dropped out: what the return restores is the name
      c went by. */
  lemma DetachedNameReturns(s: State, c: ConnId, now: Time, spare: Token, t: State, es: seq<Epoch>, run: seq<Step>,
                            d: ConnId, f: State)
    requires Inv(s) && Enabled(s, Detach(c, now, spare)) && Proper(s, Detach(c, now, spare))
    requires t == Next(s, Detach(c, now, spare))
    requires StaysReserved(t, es, run, s.conns[c].room.value, s.conns[c].id)
    requires ComesBack(After(Latest(t, es), run), d, s.conns[c].room.value, s.conns[c].id, f)
    ensures BackAs(f, d, s.conns[c].room.value, s.conns[c].id, s.conns[c].name)
  {
    hide Inv, StaysReserved, Latest, After, ComesBack, Next, Proper, BackAs;
    StepKeeps(s, Detach(c, now, spare));
    DetachedSeat(s, c, now, spare);
    ReturnKeepsName(t, es, run, s.conns[c].room.value, s.conns[c].id, d, f);
  }

  lemma DetachedSeat(s: State, c: ConnId, now: Time, spare: Token)
    requires Inv(s) && Enabled(s, Detach(c, now, spare))
    ensures var t := Next(s, Detach(c, now, spare)); var ref := s.conns[c].room.value; var u := s.conns[c].id;
            && ref in t.rooms && u in t.rooms[ref].away && u !in t.rooms[ref].clients
            && t.rooms[ref].away[u] ==
               Session(u, s.conns[c].name, s.rooms[ref].code, s.rooms[ref].host == Some(c), now)
  {
    hide Inv, Disconnected;
    ActiveAlways(s, c);
    DisconnectedFields(s.rooms[s.conns[c].room.value], c, s.conns[c].id, s.conns[c].name, now);
  }

  /** Whoever was connected at the last flush has the whole grace period from the
      restart on; the clock may only have given them more. */
  lemma ConnectedStartAfresh(s: State, e: Epoch, ref: Ref, u: UserId)
    requires Inv(s) && CanReboot(s, e) && Registered(After(s, e.run), ref) && u in After(s, e.run).rooms[ref].clients
    ensures var t := Rebooted(s, e);
            && ref in t.rooms && u in t.rooms[ref].away
            && e.now - t.rooms[ref].away[u].at == (if e.flushed.Some? then Min(e.now - e.flushed.value, 0) else 0)
            && t.rooms[ref].away[u].name == NameOf(After(s, e.run).rooms[ref], After(s, e.run).conns, u)
  {
    hide Inv, Recoverable, IsSnapshot, Loaded, Numbers, Booted, Regular, After, Shift;
    LifeKeeps(s, e);
    RebootRestarts(s, e);
    RestartedSeat(After(s, e.run), Rebooted(s, e), e.flushed, e.now, ref, u);
    ShiftAge(None, e.flushed, e.now);
  }

  // ---- the host ----

  /** The host of ref stays away through the lives. */
  ghost predicate HostStaysGone(s: State, es: seq<Epoch>, ref: Ref)
    requires Endures(s, es)
    decreases |es|
  {
    && ref in s.rooms && s.rooms[ref].hostAway.Some?
    && (es != [] ==>
          && HostGone(s, es[0].run, ref) && Registered(After(s, es[0].run), ref)
          && HostStaysGone(Rebooted(s, es[0]), es[1..], ref))
  }

  lemma StampAgesOnce(s: State, e: Epoch, ref: Ref, start: Time)
    requires Inv(s) && CanReboot(s, e) && HostGone(s, e.run, ref) && Registered(After(s, e.run), ref)
    requires ref in s.rooms && s.rooms[ref].hostAway.Some?
    ensures var t := Rebooted(s, e);
            && ref in t.rooms && t.rooms[ref].hostAway.Some?
            && e.now - t.rooms[ref].hostAway.value == start - s.rooms[ref].hostAway.value + Credited(e.flushed, e.now) - start
  {
    hide Inv, Recoverable, IsSnapshot, Loaded, Numbers, Booted, Regular, After, HostGone, Shift, Credited;
    LifeKeeps(s, e);
    StampLasts(s, e.run, ref);
    RebootRestarts(s, e);
    RestartedStamp(After(s, e.run), Rebooted(s, e), e.flushed, e.now, ref);
    ShiftAge(s.rooms[ref].hostAway, e.flushed, e.now);
  }

  lemma {:induction false} StampAgeIsUptime(s: State, es: seq<Epoch>, ref: Ref, start: Time)
    requires Inv(s) && Endures(s, es) && HostStaysGone(s, es, ref)
    ensures var t := Latest(s, es);
            && Inv(t) && ref in t.rooms && t.rooms[ref].hostAway.Some?
            && LastStart(es, start) - t.rooms[ref].hostAway.value == start - s.rooms[ref].hostAway.value + Uptime(es, start)
    decreases |es|
  {
    hide Inv, CanLoad, Recoverable, Booted, HostGone, After, Credited, Registered;
    if es != [] {
      var e := es[0];
      LifeKeeps(s, e);
      StampAgesOnce(s, e, ref, start);
      StampAgeIsUptime(Rebooted(s, e), es[1..], ref, e.now);
    }
  }

  /** The failover delay is a time of service too. */
  lemma FailoverIsUptime(s: State, es: seq<Epoch>, run: seq<Step>, ref: Ref, start: Time, t: Time)
    requires Inv(s) && Endures(s, es) && HostStaysGone(s, es, ref)
    requires Regular(Latest(s, es), run) && HostGone(Latest(s, es), run, ref)
    ensures var e := After(Latest(s, es), run);
            && ref in e.rooms
            && (FailoverDue(e.rooms[ref], t) <==>
                  && e.rooms[ref].hostId.Some?
                  && start - s.rooms[ref].hostAway.value + Uptime(es, start) + (t - LastStart(es, start)) >= FAILOVER_AFTER)
  {
    hide Inv, Endures, Latest, Regular, HostGone, After, Uptime, LastStart;
    StampAgeIsUptime(s, es, ref, start);
    StampLasts(Latest(s, es), run, ref);
    hide HostStaysGone;
  }

  // ---- what a restart does lose ----

  /** Notices are not written: a restart forgets every one of them. */
  lemma RestartForgetsNotices(s: State, t: State, flushed: Option<Time>, now: Time, ref: Ref)
    requires Restarts(s, t, flushed, now) && ref in t.rooms
    ensures t.rooms[ref].notices == map[]
  {
    hide IsSnapshot, RestoredPlay, KeptUsers, Filed, Parted, RestoredAway, RestoredStamp, Registered;
    var records, tokens, ids, n, nowMs :| BootsTo(s, t, records, tokens, ids, n, flushed, now, nowMs);
  }
}
