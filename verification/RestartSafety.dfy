/**
 A restart preserves the rooms: restoring a snapshot in which every reserved
 seat has its token gives the same members, roles, queue and tokens, and a state
 from which every run is sound again.
 */
module RestartSafety {
  import opened Base
  import opened Text
  import opened Tracks
  import opened Playback
  import opened Rooms
  import opened Records
  import opened Restart
  import opened Links
  import opened Lobby
  import opened LobbyRooms
  import opened LobbyLinks
  import opened Tokens
  import opened LobbyRuns
  import opened LobbyTimers
  import opened Runs
  import opened Snapshots

  // ---- what the canary hashes ----

  const NEWLINE: byte := 10

  /** The bytes `roomStateHash` feeds to CRC-32. */
  function HashInput(p: Play): Str
  {
    (if p.track.Some? then p.track.value.id else []) + [NEWLINE] + Lines(Ids(p.queue))
  }

  function Lines(ids: seq<Str>): Str { if ids == [] then [] else ids[0] + [NEWLINE] + Lines(ids[1..]) }

  predicate NoBreaks(s: Str) { forall i :: 0 <= i < |s| ==> s[i] != NEWLINE }

  /** A line ends at its first newline. */
  lemma LineEnds(a: Str, x: Str, b: Str, y: Str)
    requires NoBreaks(a) && NoBreaks(b) && a + [NEWLINE] + x == b + [NEWLINE] + y
    ensures a == b && x == y
  {
    var s := a + [NEWLINE] + x;
    assert s[|a|] == NEWLINE && s[|b|] == NEWLINE;
    assert forall i :: 0 <= i < |a| ==> s[i] == a[i];
    assert forall i :: 0 <= i < |b| ==> s[i] == b[i];
    assert |a| == |b|;
    assert a == s[..|a|] && b == s[..|b|] && x == s[|a| + 1..] && y == s[|b| + 1..];
  }

  lemma {:induction false} LinesTell(a: seq<Str>, b: seq<Str>)
    requires (forall s :: s in a ==> NoBreaks(s)) && (forall s :: s in b ==> NoBreaks(s))
    ensures Lines(a) == Lines(b) <==> a == b
  {
    if a != [] && b != [] && Lines(a) == Lines(b) {
      assert a[0] in a && b[0] in b && (forall s :: s in a[1..] ==> s in a) && (forall s :: s in b[1..] ==> s in b);
      LineEnds(a[0], Lines(a[1..]), b[0], Lines(b[1..]));
      LinesTell(a[1..], b[1..]);
      assert a == [a[0]] + a[1..] && b == [b[0]] + b[1..];
    }
  }

  lemma StoredIdLine(t: Track)
    requires Stored(t)
    ensures NoBreaks(t.id) && t.id != []
  {
    hide Clean, Sanitize, ValidUtf8;
  }

  /** The current track's ID, or nothing. */
  function CurrentId(p: Play): Str { if p.track.Some? then p.track.value.id else [] }

  /** The canary's input tells states apart exactly by the current track and the
      queue's order: two states within bounds give the same bytes if and only if
      they play the same track and queue the same tracks in the same order. */
  lemma CanaryTells(p: Play, q: Play, t: int)
    requires PlayInv(p, t) && PlayInv(q, t)
    ensures HashInput(p) == HashInput(q) <==>
            CurrentId(p) == CurrentId(q) && p.track.Some? == q.track.Some? && Ids(p.queue) == Ids(q.queue)
  {
    hide Stored, WireSize;
    IdsAreLines(p);
    IdsAreLines(q);
    LinesTell(Ids(p.queue), Ids(q.queue));
    if HashInput(p) == HashInput(q) {
      LineEnds(CurrentId(p), Lines(Ids(p.queue)), CurrentId(q), Lines(Ids(q.queue)));
    }
  }

  lemma IdsAreLines(p: Play)
    requires AllStored(p.queue) && (p.track.Some? ==> Stored(p.track.value))
    ensures NoBreaks(CurrentId(p)) && (p.track.Some? <==> CurrentId(p) != [])
    ensures forall s :: s in Ids(p.queue) ==> NoBreaks(s)
  {
    hide Stored;
    if p.track.Some? { StoredIdLine(p.track.value); }
    forall i | 0 <= i < |p.queue| ensures NoBreaks(p.queue[i].id) { StoredIdLine(p.queue[i]); }
  }

  /** A playing track of known length whose end lies in the past. */
  predicate Ended(p: Play, nowMs: int)
  {
    p.track.Some? && p.track.value.duration > 0 && Live(p, nowMs) >= p.track.value.duration
  }

  /** Restoring keeps the track, the queue's IDs in order, the revisions and the
      canary's input, and stays within every bound. What plays goes on as if the
      server had been up, a track that ended meanwhile is parked at its end, and a
      paused position is kept. */
  lemma PlaySurvives(p: Play, t: int, nowMs: int)
    requires PlayInv(p, t) && t <= nowMs && Clock(nowMs)
    ensures var q := RestoredPlay(p.(lastHostSeq := 0), nowMs);
            && PlayInv(q, nowMs)
            && q.track == p.track && Ids(q.queue) == Ids(p.queue) && HashInput(q) == HashInput(p)
            && q.revision == p.revision && q.trackRevision == p.trackRevision && q.volume == p.volume
            && q.title == p.title
            && (q.playing <==> p.playing && !Ended(p, nowMs))
            && (q.playing ==> Live(q, nowMs) == Live(p, nowMs))
            && (p.playing && !q.playing ==> q.position == p.track.value.duration)
            && (!p.playing ==> q.position == p.position && q.lastUpdate == p.lastUpdate)
  {
    hide Stored, CleanTrack, Live, WireSize, CleanQueue;
    RecleanQueue(p.queue, MAX_QUEUE);
    LiveInRange(p, t, nowMs);
    SameLength(p.queue);
    SameTimeline(p, p.(lastHostSeq := 0, queue := CleanQueue(p.queue, MAX_QUEUE)), nowMs);
  }

  lemma SameLength(q: seq<Track>)
    ensures |CleanQueue(q, MAX_QUEUE)| <= MAX_QUEUE
  {
    CleanQueueStores(q, MAX_QUEUE);
  }

  // ---- one room ----

  lemma {:induction false} PartedFacts(us: seq<UserInfo>, on: set<UserId>, host: Option<UserId>)
    requires WellListed(us, on, host)
    ensures Listed(Parted(us)) == Listed(us) && WellListed(Parted(us), {}, host) && Parted(Parted(us)) == Parted(us)
  {
    if us != [] {
      PartedFacts(us[1..], on, host);
      assert Parted(us)[1..] == Parted(us[1..]);
    }
  }

  /** u comes back: u was connected, or a token is stored for u's seat. */
  ghost predicate Saved(r: Room, stored: set<Row>, u: UserId)
  {
    u in r.clients || (u in r.away && exists x :: x in stored && x.token != [] && x.seat.user == u)
  }

  ghost function Back(r: Room, stored: set<Row>): set<UserId>
  {
    set u | u in r.clients.Keys + r.away.Keys && Saved(r, stored, u)
  }

  /** No token is empty, and somebody comes back if anybody was there. */
  ghost predicate Recorded(rec: Record, r: Room, conns: Conns, stored: set<Row>)
  {
    && Tokened(r, conns) && IsRecord(rec, r, conns, stored) && (forall x :: x in stored ==> x.token != [])
    && (forall v :: v in r.clients ==> conns[r.clients[v]].token.value != [])
    && (rec.rows == [] ==> rec.away == map[])
  }

  lemma KeptIsSaved(rec: Record, r: Room, conns: Conns, stored: set<Row>, u: UserId)
    requires Recorded(rec, r, conns, stored) && u in rec.away
    ensures Kept(rec, u) <==> Saved(r, stored, u)
  {
    if Kept(rec, u) {
      var x :| x in rec.rows && x.token != [] && x.seat.user == u;
      assert x in Elements(rec.rows);
      assert x in stored || x in LiveRows(r, conns);
    }
    if u in r.clients {
      var x := LiveRow(r, conns, u);
      assert x in LiveRows(r, conns);
      assert x in Elements(rec.rows);
    } else if Saved(r, stored, u) {
      var x :| x in stored && x.token != [] && x.seat.user == u;
      assert x in Elements(rec.rows);
    }
  }

  lemma {:induction false} FiledAll(list: seq<Suggestion>)
    requires Ascending(list, SuggestionKey)
    ensures forall x :: x in Filed(list) <==> exists y :: y in list && y.id == x
    ensures forall y :: y in list ==> y.id in Filed(list) && Filed(list)[y.id] == y
  {
    if list != [] {
      var n := |list| - 1;
      FiledAll(list[..n]);
      assert list == list[..n] + [list[n]];
      forall y | y in list[..n] ensures y.id != list[n].id {
        var i :| 0 <= i < n && list[i] == y;
        LessIrreflexive(y.id);
        assert Less(SuggestionKey(list[i]), SuggestionKey(list[n]));
      }
    }
  }

  /** Filing the list of a well-keyed map gives the map back. */
  lemma FiledBack(sugs: map<SuggestionId, Suggestion>, list: seq<Suggestion>)
    requires Listing(list, sugs.Values, SuggestionKey) && forall x :: x in sugs ==> sugs[x].id == x
    ensures Filed(list) == sugs
  {
    FiledAll(list);
    var m := Filed(list);
    forall x | x in sugs ensures x in m && m[x] == sugs[x] {
      assert sugs[x] in sugs.Values;
      assert sugs[x] in Elements(list);
    }
    forall x | x in m ensures x in sugs {
      var y :| y in list && y.id == x;
      assert y in Elements(list);
      assert y in sugs.Values;
    }
  }

  /** Who is gone after a restart: everybody but those who come back. */
  lemma GoneIs(rec: Record, r: Room, conns: Conns, stored: set<Row>, flushed: Option<Time>, now: Time)
    requires Recorded(rec, r, conns, stored)
    ensures Gone(rec) == (r.clients.Keys + r.away.Keys) - Back(r, stored)
    ensures RestoredAway(rec, flushed, now).Keys == Back(r, stored)
    ensures forall u :: u in Back(r, stored) ==>
              u in rec.away && RestoredAway(rec, flushed, now)[u] == SessionOf(rec.away[u], flushed, now)
  {
    hide Kept, Saved, SessionOf, LiveSeat, SeatOf;
    assert rec.away.Keys == r.clients.Keys + r.away.Keys by { SavedKeys(rec, r, conns, stored); }
    forall u | u in rec.away ensures Kept(rec, u) <==> Saved(r, stored, u) { KeptIsSaved(rec, r, conns, stored, u); }
    hide Recorded;
  }

  lemma SavedKeys(rec: Record, r: Room, conns: Conns, stored: set<Row>)
    requires Tokened(r, conns) && IsRecord(rec, r, conns, stored)
    ensures rec.away.Keys == r.clients.Keys + r.away.Keys
  {
    hide Listing, LiveSeat, SeatOf, LiveRows;
  }

  /** The restored seat of a member. */
  function SeatAfter(r: Room, conns: Conns, u: UserId, flushed: Option<Time>, now: Time): Session
    requires Tokened(r, conns) && (u in r.clients || u in r.away)
  {
    SessionOf(if u in r.clients then LiveSeat(r, conns, u) else SeatOf(r.away[u]), flushed, now)
  }

  lemma SeatsSurvive(rec: Record, r: Room, conns: Conns, stored: set<Row>, flushed: Option<Time>, now: Time)
    requires Recorded(rec, r, conns, stored)
    ensures var away := RestoredAway(rec, flushed, now);
            away.Keys == Back(r, stored) && forall u :: u in away ==> away[u] == SeatAfter(r, conns, u, flushed, now)
  {
    hide SessionOf, LiveSeat, SeatOf, Listing, RestoredAway, Saved;
    GoneIs(rec, r, conns, stored, flushed, now);
  }

  lemma {:induction false} KeptFacts(us: seq<UserInfo>, on: set<UserId>, host: Option<UserId>, gone: set<UserId>)
    requires WellListed(us, on, host)
    ensures Listed(KeptUsers(us, gone)) == Listed(us) - gone && WellListed(KeptUsers(us, gone), on, host)
  {
    if us != [] {
      KeptFacts(us[1..], on, host, gone);
      if us[0].id !in gone { assert KeptUsers(us, gone)[1..] == KeptUsers(us[1..], gone); }
    }
  }

  /** The list once everybody is disconnected and some are gone. */
  function ListAfter(us: seq<UserInfo>, gone: set<UserId>): seq<UserInfo> { KeptUsers(Parted(us), gone) }

  /** Entry by entry: whoever is gone is left out, everybody else keeps place, name
      and role and is no longer connected. */
  lemma {:induction false} ListAfterAt(us: seq<UserInfo>, gone: set<UserId>, k: nat)
    requires k < |us|
    ensures ListAfter(us, gone) ==
            ListAfter(us[..k], gone) + (if us[k].id in gone then [] else [us[k].(isConnected := false)])
            + ListAfter(us[k + 1..], gone)
  {
    if k > 0 {
      ListAfterAt(us[1..], gone, k - 1);
      assert us[..k][1..] == us[1..][..k - 1] && us[1..][k..] == us[k + 1..];
    }
    assert Parted(us)[1..] == Parted(us[1..]);
  }

  ghost function GoneFrom(r: Room, stored: set<Row>): set<UserId> { (r.clients.Keys + r.away.Keys) - Back(r, stored) }

  lemma ListSurvives(rec: Record, r: Room, conns: Conns, stored: set<Row>)
    requires Recorded(rec, r, conns, stored) && Roster(r) && MailInv(r)
    ensures KeptUsers(Parted(rec.users), Gone(rec)) == ListAfter(r.users, GoneFrom(r, stored))
    ensures Filed(rec.suggestions) == r.suggestions
  {
    hide WellListed, Listed, SavedAway, LiveRows, Parted, SeatsOf, Gone, Back, KeptUsers;
    GoneIs(rec, r, conns, stored, None, 0);
    PartedFacts(r.users, r.clients.Keys, r.hostId);
    FiledBack(r.suggestions, rec.suggestions);
  }

  /** Whoever has a token comes back as a reserved seat, and nobody else; same
      roles and suggestions; the list names exactly those who came back. */
  lemma MembersSurvive(rec: Record, r: Room, conns: Conns, stored: set<Row>, flushed: Option<Time>, now: Time,
                       nowMs: int)
    requires Recorded(rec, r, conns, stored) && Roster(r) && MailInv(r)
    ensures var q := Restored(rec, flushed, now, nowMs);
            && q.code == r.code && q.hostId == r.hostId && q.owner == r.owner && q.host.None?
            && q.clients == map[] && q.pending == map[] && q.notices == map[]
            && q.away.Keys == Back(r, stored)
            && (forall u :: u in q.away ==> q.away[u] == SeatAfter(r, conns, u, flushed, now))
            && q.users == ListAfter(r.users, GoneFrom(r, stored)) && q.suggestions == r.suggestions
  {
    hide Roster, MailInv, RestoredPlay, RestoredAway, SeatAfter, KeptUsers, Parted, Gone, Filed, SavedAway, Listing,
      LiveRows, Back,
      ListAfter, GoneFrom, RestoredStamp;
    SeatsSurvive(rec, r, conns, stored, flushed, now);
    ListSurvives(rec, r, conns, stored);
  }

  lemma RestoredRoster(r: Room, conns: Conns, q: Room, stored: set<Row>, flushed: Option<Time>, now: Time)
    requires Roster(r) && Tokened(r, conns) && q.clients == map[] && q.away.Keys == Back(r, stored)
    requires q.users == ListAfter(r.users, GoneFrom(r, stored)) && q.hostId == r.hostId && q.code == r.code
    requires forall u :: u in q.away ==> q.away[u] == SeatAfter(r, conns, u, flushed, now)
    ensures Roster(q)
  {
    hide RosterOf, SeatsOf, SeatAfter, Parted, KeptUsers, Saved;
    ListRoster(r.users, r.clients.Keys, r.away.Keys, r.hostId, GoneFrom(r, stored));
    NoKeys(q.clients);
    RosterApart(r);
    assert (r.clients.Keys + r.away.Keys) - GoneFrom(r, stored) == q.away.Keys;
    SeatCount(r.clients, r.away, q.away);
    RestoredSeats(r, conns, q, flushed, now);
  }

  lemma NoKeys(m: map<UserId, ConnId>)
    requires m == map[]
    ensures m.Keys == {} && |m| == 0
  {
  }

  lemma RestoredSeats(r: Room, conns: Conns, q: Room, flushed: Option<Time>, now: Time)
    requires SeatsOf(r.away, r.code) && Tokened(r, conns) && q.away.Keys <= r.clients.Keys + r.away.Keys
             && q.code == r.code
    requires forall u :: u in q.away ==> q.away[u] == SeatAfter(r, conns, u, flushed, now)
    ensures SeatsOf(q.away, q.code)
  {
  }

  lemma ListRoster(us: seq<UserInfo>, on: set<UserId>, off: set<UserId>, host: Option<UserId>, gone: set<UserId>)
    requires RosterOf(us, on, off, host)
    ensures RosterOf(ListAfter(us, gone), {}, (on + off) - gone, host)
  {
    hide WellListed, Listed, Parted, KeptUsers;
    PartedFacts(us, on, host);
    KeptFacts(Parted(us), {}, host, gone);
  }

  lemma SeatCount(clients: map<UserId, ConnId>, away: map<UserId, Session>, seats: map<UserId, Session>)
    requires clients.Keys !! away.Keys && seats.Keys <= clients.Keys + away.Keys
    ensures |seats| <= |clients| + |away|
  {
    UnionCard(clients.Keys, away.Keys);
    SubsetCard(seats.Keys, clients.Keys + away.Keys);
    assert |seats| == |seats.Keys| && |clients| == |clients.Keys| && |away| == |away.Keys|;
  }

  lemma UnionCard<T>(a: set<T>, b: set<T>)
    requires a !! b
    ensures |a + b| == |a| + |b|
  {
  }

  /** Suggestions survive as they are, so their authors must. */
  lemma RestoredMail(r: Room, q: Room)
    requires MailInv(r) && q.clients == map[] && q.away.Keys <= r.clients.Keys + r.away.Keys
    requires q.suggestions == r.suggestions && q.notices == map[]
    ensures MailInv(q) <==> forall x :: x in r.suggestions ==> r.suggestions[x].author in q.away
  {
    hide By;
  }

  /** Host, owner and every author of an open suggestion come back. */
  ghost predicate RolesSaved(r: Room, stored: set<Row>)
  {
    && (r.hostId.Some? && Back(r, stored) != {} ==> Saved(r, stored, r.hostId.value))
    && (r.owner.Some? ==> Saved(r, stored, r.owner.value))
    && (forall x :: x in r.suggestions ==> Saved(r, stored, r.suggestions[x].author))
  }

  /** Restart preserves the room if and only if the host, the waiting owner and
      every author of an open suggestion come back. */
  lemma RoomSurvives(rec: Record, r: Room, conns: Conns, conns': Conns, stored: set<Row>, flushed: Option<Time>,
                     now: Time, nowMs: int)
    requires Recorded(rec, r, conns, stored) && RoomInv(r, conns)
    ensures RoomInv(Restored(rec, flushed, now, nowMs), conns') <==> RolesSaved(r, stored)
  {
    hide Recorded, Roster, HostInv, MailInv, Restored, SeatAfter, Kept, Saved, IsRecord, Back, GoneFrom, ListAfter;
    var q := Restored(rec, flushed, now, nowMs);
    assert Tokened(r, conns) && IsRecord(rec, r, conns, stored) by { RecordedParts(rec, r, conns, stored); }
    MembersSurvive(rec, r, conns, stored, flushed, now, nowMs);
    RestoredRoster(r, conns, q, stored, flushed, now);
    BackMembers(r, stored);
    RestoredMail(r, q);
    HostSurvives(rec, r, conns, conns', stored, flushed, now, nowMs);
    RolesKept(rec, r, conns, stored);
    AuthorsBack(r, stored, q.away.Keys);
  }

  lemma RecordedParts(rec: Record, r: Room, conns: Conns, stored: set<Row>)
    requires Recorded(rec, r, conns, stored)
    ensures Tokened(r, conns) && IsRecord(rec, r, conns, stored)
  {
    hide IsRecord;
  }

  lemma BackMembers(r: Room, stored: set<Row>)
    ensures Back(r, stored) <= r.clients.Keys + r.away.Keys
  {
  }

  lemma AuthorsBack(r: Room, stored: set<Row>, back: set<UserId>)
    requires MailInv(r) && back == Back(r, stored)
    ensures (forall x :: x in r.suggestions ==> r.suggestions[x].author in back)
            <==> forall x :: x in r.suggestions ==> Saved(r, stored, r.suggestions[x].author)
  {
    hide By, Saved;
  }

  /** Being kept in the record is coming back. */
  lemma RolesKept(rec: Record, r: Room, conns: Conns, stored: set<Row>)
    requires Recorded(rec, r, conns, stored) && RoomInv(r, conns)
    ensures (exists u :: u in rec.away && Kept(rec, u)) <==> Back(r, stored) != {}
    ensures r.hostId.Some? && Back(r, stored) != {} ==>
              (Kept(rec, r.hostId.value) <==> Saved(r, stored, r.hostId.value))
    ensures r.owner.Some? ==> (Kept(rec, r.owner.value) <==> Saved(r, stored, r.owner.value))
  {
    hide Kept, Saved, Roster, MailInv, Listing, LiveRows, SavedAway;
    RecordedParts(rec, r, conns, stored);
    SavedKeys(rec, r, conns, stored);
    forall u | u in rec.away ensures Kept(rec, u) <==> Saved(r, stored, u) { KeptIsSaved(rec, r, conns, stored, u); }
    RecordedSeats(rec, r, conns, stored);
    hide RoomInv, Recorded;
    assert forall u :: u in rec.away && Kept(rec, u) ==> u in Back(r, stored);
    if Back(r, stored) != {} {
      var u :| u in Back(r, stored);
      assert u in rec.away;
    }
  }

  // ---- the host seat ----

  /** What of the restored room the host seat depends on. */
  ghost predicate Remains(q: Room, rec: Record)
  {
    && q.hostId == rec.hostId && q.owner == rec.owner && q.host.None? && q.clients == map[]
    && (forall u :: u in q.away <==> u in rec.away && Kept(rec, u))
    && (forall u :: u in q.away ==> q.away[u].isHost == rec.away[u].isHost)
    && (q.hostAway.Some? <==> rec.hostAway.Some? || (rec.hostId.Some? && rec.hostId.value in q.away))
  }

  lemma RestoredRemains(rec: Record, flushed: Option<Time>, now: Time, nowMs: int)
    ensures Remains(Restored(rec, flushed, now, nowMs), rec)
  {
    hide Kept, RestoredPlay, KeptUsers, Parted, Filed, Gone;
  }

  /** Who hosts and who owns, as recorded. */
  lemma RecordedSeats(rec: Record, r: Room, conns: Conns, stored: set<Row>)
    requires RoomInv(r, conns) && Tokened(r, conns) && IsRecord(rec, r, conns, stored)
    ensures rec.hostId == r.hostId && rec.owner == r.owner
    ensures rec.away.Keys == r.clients.Keys + r.away.Keys
    ensures rec.away != map[] && r.hostId.Some? ==> r.hostId.value in rec.away && rec.away[r.hostId.value].isHost
    ensures rec.away != map[] && r.hostId.None? ==> rec.hostAway.None?
    ensures r.owner.Some? ==> r.owner.value in rec.away && rec.away[r.owner.value].isHost && r.owner != r.hostId
  {
    hide Roster, MailInv, Listing, LiveRows, Parted, SavedAway;
    RosterApart(r);
    SavedHosts(r, conns);
    if Deserted(r) { NoKeys(r.clients); }
  }

  lemma SavedHosts(r: Room, conns: Conns)
    requires Tokened(r, conns)
    ensures var m := SavedAway(r, conns);
            && m.Keys == r.clients.Keys + r.away.Keys
            && (forall u :: u in m ==> m[u].isHost == if u in r.clients then r.hostId == Some(u) else r.away[u].isHost)
            && (r.clients == map[] && r.away == map[] ==> m == map[])
  {
  }

  /** Whether the host seat survives a restart: exactly when the host and the
      waiting owner have tokens, or nobody comes back. */
  lemma HostSurvives(rec: Record, r: Room, conns: Conns, conns': Conns, stored: set<Row>, flushed: Option<Time>,
                     now: Time, nowMs: int)
    requires RoomInv(r, conns) && Tokened(r, conns) && IsRecord(rec, r, conns, stored)
    ensures HostInv(Restored(rec, flushed, now, nowMs), conns') <==>
            && ((r.hostId.Some? && exists u :: u in rec.away && Kept(rec, u)) ==> Kept(rec, r.hostId.value))
            && (r.owner.Some? ==> Kept(rec, r.owner.value))
  {
    hide RoomInv, IsRecord, Kept, Restored;
    var q := Restored(rec, flushed, now, nowMs);
    RestoredRemains(rec, flushed, now, nowMs);
    RecordedSeats(rec, r, conns, stored);
    if exists u :: u in rec.away && Kept(rec, u) {
      var u :| u in rec.away && Kept(rec, u);
      assert u in q.away;
    } else {
      assert forall u :: u !in q.away;
      assert q.away == map[];
    }
  }
}
