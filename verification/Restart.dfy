/**
 Restoring rooms from their records (`restoreRoomLocked`): members come back as
 reserved seats under their tokens, time spent offline does not count.
 */
module Restart {
  import opened Base
  import opened Text
  import opened Tracks
  import opened Playback
  import opened Rooms
  import opened Records

  // ---- clocks ----

  /** The flush time as stored: whole milliseconds. */
  function Stamp(flush: Time): Time { flush / MILLI * MILLI }

  /** How long the server was away; nothing if no flush is known or the clock went back. */
  function Outage(flushed: Option<Time>, now: Time): Time
  {
    if flushed.Some? && now > flushed.value then now - flushed.value else 0
  }

  /** `disconnectedAt`: members connected at the flush count as dropped at the stop. */
  function Shift(at: Option<Time>, flushed: Option<Time>, now: Time): Time
  {
    (if at.Some? then at.value else if flushed.Some? then flushed.value else now) + Outage(flushed, now)
  }

  /** The moment up to which a life of the server counts. */
  function Credited(flushed: Option<Time>, now: Time): Time { if flushed.Some? then Min(now, flushed.value) else now }

  /** At a restart an age is what it was at the flush, or less if the clock went
      back; a member connected at the flush has the whole grace period. */
  lemma ShiftAge(at: Option<Time>, flushed: Option<Time>, now: Time)
    ensures at.Some? ==> now - Shift(at, flushed, now) == Credited(flushed, now) - at.value
    ensures at.None? ==> now - Shift(at, flushed, now) == if flushed.Some? then Min(now - flushed.value, 0) else 0
  {
  }

  /** Storing the flush time loses less than a millisecond. */
  lemma StampLoss(flush: Time, now: Time)
    requires flush <= now
    ensures flush - MILLI < Credited(Some(Stamp(flush)), now) <= flush
  {
  }

  // ---- one room ----

  predicate HasRow(rows: seq<Row>, u: UserId) { exists x :: x in rows && x.token != [] && x.seat.user == u }

  /** A seat comes back if its user has a token, or if no token was recorded at all. */
  predicate Kept(rec: Record, u: UserId) { HasRow(rec.rows, u) || rec.rows == [] }

  function SessionOf(x: SavedSeat, flushed: Option<Time>, now: Time): Session
  {
    Session(x.user, x.name, x.code, x.isHost, Shift(x.at, flushed, now))
  }

  function RestoredAway(rec: Record, flushed: Option<Time>, now: Time): map<UserId, Session>
  {
    map u | u in rec.away && Kept(rec, u) :: SessionOf(rec.away[u], flushed, now)
  }

  /** The list without the members that were dropped. */
  function KeptUsers(us: seq<UserInfo>, gone: set<UserId>): seq<UserInfo>
  {
    if us == [] then []
    else if us[0].id in gone then KeptUsers(us[1..], gone)
    else [us[0]] + KeptUsers(us[1..], gone)
  }

  function Gone(rec: Record): set<UserId> { set u | u in rec.away && !Kept(rec, u) }

  /** A playing track that ended during the outage is parked at its end. */
  function Parked(p: Play, nowMs: int): Play
  {
    if p.playing && p.track.Some? && p.track.value.duration > 0 && Live(p, nowMs) >= p.track.value.duration
    then p.(playing := false, position := p.track.value.duration, lastUpdate := nowMs) else p
  }

  function RestoredPlay(p: Play, nowMs: int): Play { Parked(p.(queue := CleanQueue(p.queue, MAX_QUEUE)), nowMs) }

  function RestoredStamp(rec: Record, flushed: Option<Time>, now: Time): Option<Time>
  {
    var away := RestoredAway(rec, flushed, now);
    if rec.hostAway.Some? then Some(rec.hostAway.value + Outage(flushed, now))
    else if rec.hostId.Some? && rec.hostId.value in away then Some(away[rec.hostId.value].at)
    else None
  }

  function Filed(list: seq<Suggestion>): map<SuggestionId, Suggestion>
  {
    if list == [] then map[] else Filed(list[..|list| - 1])[list[|list| - 1].id := list[|list| - 1]]
  }

  function Restored(rec: Record, flushed: Option<Time>, now: Time, nowMs: int): Room
  {
    Room(rec.code, None, map[], map[], Filed(rec.suggestions), RestoredAway(rec, flushed, now),
         KeptUsers(Parted(rec.users), Gone(rec)), rec.hostId, RestoredStamp(rec, flushed, now), rec.owner, map[],
         RestoredPlay(rec.play, nowMs))
  }

  /** The tokens a record brings back. */
  function RestoredTokens(rec: Record, flushed: Option<Time>, now: Time): map<Token, Session>
  {
    TokensFrom(rec.rows, flushed, now)
  }

  function TokensFrom(rows: seq<Row>, flushed: Option<Time>, now: Time): map<Token, Session>
  {
    if rows == [] then map[]
    else
      var x := rows[|rows| - 1];
      var m := TokensFrom(rows[..|rows| - 1], flushed, now);
      if x.token == [] then m else m[x.token := SessionOf(x.seat, flushed, now)]
  }

  // ---- the loops of restoreRoomLocked ----

  lemma {:induction false} KeptUsersMore(us: seq<UserInfo>, gone: set<UserId>, u: UserId)
    ensures WithoutUser(KeptUsers(us, gone), u) == KeptUsers(us, gone + {u})
  {
    if us != [] {
      KeptUsersMore(us[1..], gone, u);
      if us[0].id !in gone {
        assert KeptUsers(us, gone)[1..] == KeptUsers(us[1..], gone);
      }
    }
  }

  lemma {:induction false} KeepAll(us: seq<UserInfo>)
    ensures KeptUsers(us, {}) == us
  {
    if us != [] { KeepAll(us[1..]); }
  }

  method Reconnectable(rows: seq<Row>) returns (users: set<UserId>)
    ensures forall u :: u in users <==> HasRow(rows, u)
  {
    users := {};
    for i := 0 to |rows|
      invariant forall u :: u in users <==> HasRow(rows[..i], u)
    {
      assert rows[..i + 1] == rows[..i] + [rows[i]];
      if rows[i].token != [] {
        users := users + {rows[i].seat.user};
        assert HasRow(rows[..i + 1], rows[i].seat.user) by { assert rows[i] in rows[..i + 1]; }
      }
    }
    assert rows[..|rows|] == rows;
  }

  /** The members loop: seats come back or their users leave the list, in
      whatever order the map is walked. */
  method RestoreMembers(rec: Record, flushed: Option<Time>, now: Time) returns (away: map<UserId, Session>,
                        users: seq<UserInfo>)
    ensures away == RestoredAway(rec, flushed, now)
    ensures users == KeptUsers(Parted(rec.users), Gone(rec))
  {
    var reconnectable := Reconnectable(rec.rows);
    away := map[];
    users := PartUsers(rec.users);
    KeepAll(users);
    var todo := rec.away.Keys;
    ghost var gone: set<UserId> := {};
    while todo != {}
      invariant todo <= rec.away.Keys
      invariant gone == set u | u in rec.away && u !in todo && !Kept(rec, u)
      invariant away == map u | u in rec.away && u !in todo && Kept(rec, u) :: SessionOf(rec.away[u], flushed, now)
      invariant users == KeptUsers(Parted(rec.users), gone)
    {
      var u :| u in todo;
      todo := todo - {u};
      if u !in reconnectable && |rec.rows| > 0 {
        KeptUsersMore(Parted(rec.users), gone, u);
        users := DropUser(users, u);
        gone := gone + {u};
      } else {
        away := away[u := SessionOf(rec.away[u], flushed, now)];
      }
    }
    assert gone == Gone(rec);
  }

  method FileSuggestions(list: seq<Suggestion>) returns (sugs: map<SuggestionId, Suggestion>)
    ensures sugs == Filed(list)
  {
    sugs := map[];
    for i := 0 to |list|
      invariant sugs == Filed(list[..i])
    {
      assert list[..i + 1][..i] == list[..i];
      sugs := sugs[list[i].id := list[i]];
    }
    assert list[..|list|] == list;
  }

  method RestoreTokens(rows: seq<Row>, flushed: Option<Time>, now: Time) returns (m: map<Token, Session>)
    ensures m == TokensFrom(rows, flushed, now)
  {
    m := map[];
    for i := 0 to |rows|
      invariant m == TokensFrom(rows[..i], flushed, now)
    {
      assert rows[..i + 1][..i] == rows[..i];
      if rows[i].token != [] { m := m[rows[i].token := SessionOf(rows[i].seat, flushed, now)]; }
    }
    assert rows[..|rows|] == rows;
  }

  /** `restoreRoomLocked`. */
  method RestoreRoom(rec: Record, flushed: Option<Time>, now: Time, nowMs: int) returns (r: Room,
                     tokens: map<Token, Session>)
    ensures r == Restored(rec, flushed, now, nowMs)
    ensures tokens == RestoredTokens(rec, flushed, now)
  {
    hide CleanQueue, Live;
    var queue := SanitizeQueue(rec.play.queue);
    var play := Parked(rec.play.(queue := queue), nowMs);
    var sugs := FileSuggestions(rec.suggestions);
    var away, users := RestoreMembers(rec, flushed, now);
    var stamp := None;
    if rec.hostAway.Some? {
      stamp := Some(rec.hostAway.value + Outage(flushed, now));
    } else if rec.hostId.Some? && rec.hostId.value in away {
      stamp := Some(away[rec.hostId.value].at);
    }
    tokens := RestoreTokens(rec.rows, flushed, now);
    r := Room(rec.code, None, map[], map[], sugs, away, users, rec.hostId, stamp, rec.owner, map[], play);
  }
}
