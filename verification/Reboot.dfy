/**
 The whole server after a restart (`LoadState`): exactly which snapshots restore
 a server that satisfies the whole invariant again, so that every run continues
 soundly, over any number of lives.
 */
module Reboot {
  import opened Base
  import opened Text
  import opened Tracks
  import opened Playback
  import opened Rooms
  import opened Records
  import opened Restart
  import opened Links
  import opened Lobby
  import opened LobbyRooms
  import opened LobbyLinks
  import opened Tokens
  import opened LobbyRuns
  import opened LobbyTimers
  import opened Runs
  import opened Snapshots
  import opened RestartSafety

  // ---- loading ----

  /** t comes from the record of some room, with session x. */
  ghost predicate FromRecord(records: map<Code, Record>, flushed: Option<Time>, now: Time, t: Token, x: Session)
  {
    exists code ::
      && code in records && t in RestoredTokens(records[code], flushed, now)
      && RestoredTokens(records[code], flushed, now)[t] == x
  }

  ghost predicate Loaded(records: map<Code, Record>, flushed: Option<Time>, now: Time, tokens: map<Token, Session>)
  {
    && (forall t :: t in tokens ==> FromRecord(records, flushed, now, t, tokens[t]))
    && (forall code, t :: code in records && t in RestoredTokens(records[code], flushed, now) ==> t in tokens)
  }

  /** The loop of `LoadState` over the stored records, in any order. */
  method LoadRooms(records: map<Code, Record>, flushed: Option<Time>, now: Time, nowMs: int)
    returns (rooms: map<Code, Room>, tokens: map<Token, Session>)
    ensures rooms == map code | code in records :: Restored(records[code], flushed, now, nowMs)
    ensures Loaded(records, flushed, now, tokens)
  {
    hide Restored, RestoredTokens;
    rooms, tokens := map[], map[];
    var todo := records.Keys;
    while todo != {}
      invariant todo <= records.Keys
      invariant rooms == map code | code in records && code !in todo :: Restored(records[code], flushed, now, nowMs)
      invariant forall t :: t in tokens ==> FromRecord(records, flushed, now, t, tokens[t])
      invariant forall code, t ::
                  code in records && code !in todo && t in RestoredTokens(records[code], flushed, now) ==> t in tokens
    {
      var code :| code in todo;
      var room, more := RestoreRoom(records[code], flushed, now, nowMs);
      forall t | t in more ensures FromRecord(records, flushed, now, t, more[t]) { }
      rooms := rooms[code := room];
      tokens := tokens + more;
      todo := todo - {code};
    }
  }

  // ---- whose token is whose ----

  /** Token t is u's way back into room ref: u is active under it, or it is
      stored for u's reserved seat. */
  ghost predicate Bears(s: State, t: Token, ref: Ref, u: UserId)
  {
    && Registered(s, ref)
    && ((u in s.rooms[ref].clients && s.rooms[ref].clients[u] in s.conns && s.conns[s.rooms[ref].clients[u]].token == Some(t))
        || (u in s.rooms[ref].away && t in s.sessions && s.sessions[t].session == s.rooms[ref].away[u]))
  }

  /** Two members never bear the same token, nor one member two. */
  lemma BearersApart(s: State, t: Token, ref: Ref, u: UserId, t': Token, ref': Ref, u': UserId)
    requires Inv(s) && Bears(s, t, ref, u) && Bears(s, t', ref', u') && (t == t' || u == u')
    ensures t == t' && ref == ref' && u == u'
  {
    hide Inv;
    BearerFacts(s, t, ref, u);
    BearerFacts(s, t', ref', u');
    InvHomes(s);
    InvSeparate(s);
    hide LinkInv;
    if u == u' {
      assert MemberIn(s.rooms, ref, u) && MemberIn(s.rooms, ref', u);
    }
  }

  lemma InvHomes(s: State)
    requires Inv(s)
    ensures OneHome(s.rooms)
    ensures forall c, d :: c in s.conns && d in s.conns && c != d && s.conns[c].room.Some? && s.conns[d].room.Some? ==>
              s.conns[c].token != s.conns[d].token
  {
    hide RegInv, RoomsInv, ClosingInv, Linked, BackLinked, Applicants, Known, OneHome, Backed, Separate, Covered,
      Issued, AttemptInv, HistoryInv;
  }

  lemma InvSeparate(s: State)
    requires Inv(s)
    ensures Separate(s.sessions)
  {
    hide RoomsOk, ClosingInv, Backed, Separate, Covered, Carried, Issued, AttemptInv, HistoryInv;
  }

  /** What bearing a token means, one way or the other. */
  lemma BearerFacts(s: State, t: Token, ref: Ref, u: UserId)
    requires Inv(s) && Bears(s, t, ref, u)
    ensures t != [] && t in s.usedTokens
    ensures if u in s.rooms[ref].clients
            then && u !in s.rooms[ref].away && t !in s.sessions
                 && var c := s.rooms[ref].clients[u];
                    c in s.conns && s.conns[c].id == u && s.conns[c].room == Some(ref) && s.conns[c].token == Some(t)
            else && u in s.rooms[ref].away && t in s.sessions && s.sessions[t].session == s.rooms[ref].away[u]
                 && s.sessions[t].session.user == u && s.sessions[t].session.code == s.rooms[ref].code
  {
    hide RegInv, RoomsInv, LinkInv, ClosingInv, Backed, Separate, Covered, AttemptInv, HistoryInv;
    if u in s.rooms[ref].away {
      SeatFiled(s, ref, u);
    } else {
      ActiveLink(s, ref, u);
    }
  }

  lemma ActiveLink(s: State, ref: Ref, u: UserId)
    requires Linking(s) && ref in s.rooms && u in s.rooms[ref].clients
    ensures var c := s.rooms[ref].clients[u]; c in s.conns && s.conns[c].id == u && s.conns[c].room == Some(ref)
  {
    hide BackLinked, Applicants, OneHome, Known;
  }

  /** u is active in ref, or a token is stored for u's seat. */
  ghost predicate Borne(s: State, ref: Ref, u: UserId)
  {
    && ref in s.rooms
    && (u in s.rooms[ref].clients || (u in s.rooms[ref].away && HasToken(s.sessions, s.rooms[ref].away[u])))
  }

  /** Whoever's expiry is under way may be forgotten: somebody else comes back,
      and u is not host, owner or author of an open suggestion. */
  ghost predicate Expendable(s: State, ref: Ref, u: UserId)
    requires ref in s.rooms
  {
    var r := s.rooms[ref];
    && (exists w :: Borne(s, ref, w)) && r.hostId != Some(u) && r.owner != Some(u)
    && forall x :: x in r.suggestions ==> r.suggestions[x].author != u
  }

  /** A snapshot now could be restored: every reserved seat has its token or is expendable. */
  ghost predicate Recoverable(s: State)
  {
    forall ref, u :: Registered(s, ref) && u in s.rooms[ref].away && !Borne(s, ref, u) ==> Expendable(s, ref, u)
  }

  lemma {:induction false} TokensFromAll(rows: seq<Row>, flushed: Option<Time>, now: Time)
    requires Ascending(rows, RowKey)
    ensures forall t :: t in TokensFrom(rows, flushed, now) ==>
              exists x ::
                && x in rows && x.token == t && t != []
                && TokensFrom(rows, flushed, now)[t] == SessionOf(x.seat, flushed, now)
    ensures forall x :: x in rows && x.token != [] ==> x.token in TokensFrom(rows, flushed, now)
  {
    hide SessionOf;
    if rows != [] {
      var n := |rows| - 1;
      TokensFromAll(rows[..n], flushed, now);
      assert rows == rows[..n] + [rows[n]];
    }
  }

  /** A row of a room's record is the row of the member who bears its token. */
  lemma RowIsBorne(s: State, ref: Ref, x: Row, flushed: Option<Time>, now: Time)
    requires Inv(s) && Registered(s, ref) && Tokened(s.rooms[ref], s.conns)
    requires x in StoredRows(s.sessions, s.rooms[ref].code) + LiveRows(s.rooms[ref], s.conns)
    ensures Bears(s, x.token, ref, x.seat.user)
    ensures SessionOf(x.seat, flushed, now) == SeatAfter(s.rooms[ref], s.conns, x.seat.user, flushed, now)
  {
    hide Inv;
    InvParts(s);
    hide RoomsOk, ClosingInv, TokensOk;
    if x in StoredRows(s.sessions, s.rooms[ref].code) {
      TokensBacked(s);
      var t :| t in s.sessions && s.sessions[t].session.code == s.rooms[ref].code && x == StoredRow(s.sessions, t);
      assert Stands(s.sessions[t].session, s.rooms, s.registry);
      SeatFiled(s, ref, x.seat.user);
    } else {
      var u :| u in s.rooms[ref].clients && x == LiveRow(s.rooms[ref], s.conns, u);
    }
  }

  lemma BorneHasRow(s: State, t: Token, ref: Ref, u: UserId)
    requires Inv(s) && Bears(s, t, ref, u) && Tokened(s.rooms[ref], s.conns)
    ensures exists x :: x in StoredRows(s.sessions, s.rooms[ref].code) + LiveRows(s.rooms[ref], s.conns) && x.token == t
  {
    hide Inv;
    BearerFacts(s, t, ref, u);
    if u in s.rooms[ref].clients {
      assert LiveRow(s.rooms[ref], s.conns, u) in LiveRows(s.rooms[ref], s.conns);
      assert LiveRow(s.rooms[ref], s.conns, u).token == t;
    } else {
      assert StoredRow(s.sessions, t) in StoredRows(s.sessions, s.rooms[ref].code);
      assert StoredRow(s.sessions, t).token == t;
    }
  }

  /** The tokens after a restart: the same names for the same members. */
  ghost predicate Returns(s: State, tokens: map<Token, Session>, flushed: Option<Time>, now: Time)
  {
    && (forall t :: t in tokens ==> exists ref, u :: Bears(s, t, ref, u) && Holds(s, ref, u, tokens[t], flushed, now))
    && (forall t, ref, u :: Bears(s, t, ref, u) ==> t in tokens)
  }

  ghost predicate Holds(s: State, ref: Ref, u: UserId, x: Session, flushed: Option<Time>, now: Time)
  {
    && ref in s.rooms && Tokened(s.rooms[ref], s.conns) && (u in s.rooms[ref].clients || u in s.rooms[ref].away)
    && x == SeatAfter(s.rooms[ref], s.conns, u, flushed, now)
  }

  lemma RecordTokens(s: State, rec: Record, code: Code, flushed: Option<Time>, now: Time, t: Token)
    requires Inv(s) && Snapped(rec, s, code) && Registered(s, s.registry[code])
             && t in RestoredTokens(rec, flushed, now)
    ensures exists ref, u :: Bears(s, t, ref, u) && Holds(s, ref, u, RestoredTokens(rec, flushed, now)[t], flushed, now)
  {
    hide Inv, Bears, SeatAfter;
    var ref := s.registry[code];
    TokensFromAll(rec.rows, flushed, now);
    var x :| x in rec.rows && x.token == t && RestoredTokens(rec, flushed, now)[t] == SessionOf(x.seat, flushed, now);
    assert x in Elements(rec.rows);
    assert s.rooms[ref].code == code by { InvCode(s, code); }
    RowIsBorne(s, ref, x, flushed, now);
    BearerMember(s, t, ref, x.seat.user);
    assert Holds(s, ref, x.seat.user, RestoredTokens(rec, flushed, now)[t], flushed, now);
  }

  lemma BearerMember(s: State, t: Token, ref: Ref, u: UserId)
    requires Bears(s, t, ref, u)
    ensures u in s.rooms[ref].clients || u in s.rooms[ref].away
  {
  }

  lemma InvCode(s: State, code: Code)
    requires Inv(s) && code in s.registry
    ensures s.registry[code] in s.rooms && s.rooms[s.registry[code]].code == code && Registered(s, s.registry[code])
  {
    hide RoomsInv, LinkInv, ClosingInv, TokensOk;
  }

  lemma BorneIsLoaded(s: State, records: map<Code, Record>, tokens: map<Token, Session>, flushed: Option<Time>,
                      now: Time, t: Token, ref: Ref, u: UserId)
    requires Inv(s) && IsSnapshot(records, s) && Loaded(records, flushed, now, tokens) && Bears(s, t, ref, u)
    ensures t in tokens
  {
    hide Inv, FromRecord;
    var code := s.rooms[ref].code;
    assert Snapped(records[code], s, code);
    BearerFacts(s, t, ref, u);
    BorneHasRow(s, t, ref, u);
    var x :| x in StoredRows(s.sessions, code) + LiveRows(s.rooms[ref], s.conns) && x.token == t;
    assert x in Elements(records[code].rows);
    TokensFromAll(records[code].rows, flushed, now);
    assert t in RestoredTokens(records[code], flushed, now);
  }

  /** Loading a snapshot brings back exactly the tokens members bore. */
  lemma SnapshotReturns(s: State, records: map<Code, Record>, tokens: map<Token, Session>, flushed: Option<Time>,
                        now: Time)
    requires Inv(s) && IsSnapshot(records, s) && Loaded(records, flushed, now, tokens)
    ensures Returns(s, tokens, flushed, now)
  {
    hide Inv, Bears, Holds, Snapped;
    forall t | t in tokens ensures exists ref, u :: Bears(s, t, ref, u) && Holds(s, ref, u, tokens[t], flushed, now) {
      var code :|
        code in records && t in RestoredTokens(records[code], flushed, now)
        && RestoredTokens(records[code], flushed, now)[t] == tokens[t];
      InvCode(s, code);
      assert Snapped(records[code], s, code);
      RecordTokens(s, records[code], code, flushed, now, t);
    }
    forall t, ref, u | Bears(s, t, ref, u) ensures t in tokens {
      BorneIsLoaded(s, records, tokens, flushed, now, t, ref, u);
    }
  }

  // ---- the restored server ----

  /** The new session objects are numbered from zero. */
  ghost predicate Numbers(ids: map<Token, SessionRef>, tokens: map<Token, Session>, n: nat)
  {
    && ids.Keys == tokens.Keys && (forall t :: t in ids ==> ids[t] < n)
    && (forall t, v :: t in ids && v in ids && t != v ==> ids[t] != ids[v])
    && (forall x: nat :: x < n ==> Taken(ids, x))
  }

  ghost predicate Taken(ids: map<Token, SessionRef>, x: nat) { exists t :: t in ids && ids[t] == x }

  /** The server `LoadState` leaves behind: rooms and tokens, no connection yet.
      A restored room goes by the number of the room it was recorded from. */
  ghost function Booted(s: State, records: map<Code, Record>, tokens: map<Token, Session>, ids: map<Token, SessionRef>,
                        n: nat, flushed: Option<Time>, now: Time, nowMs: int): State
    requires ids.Keys == tokens.Keys
  {
    State(map[],
          map ref | ref in s.rooms && Registered(s, ref) && s.rooms[ref].code in records
                    :: Restored(records[s.rooms[ref].code], flushed, now, nowMs),
          s.registry,
          map t | t in tokens :: Entry(tokens[t], ids[t], false),
          map[], {}, {}, s.usedIds, s.usedTokens, n, {}, {}, nowMs)
  }

  /** Coming back, seen from the record and from the server. */
  lemma BorneIsSaved(s: State, ref: Ref, u: UserId)
    requires Inv(s) && Registered(s, ref)
    ensures Saved(s.rooms[ref], StoredRows(s.sessions, s.rooms[ref].code), u) <==> Borne(s, ref, u)
  {
    hide Inv, RoomsOk, ClosingInv, TokensOk;
    InvParts(s);
    TokensBacked(s);
    InvIssued(s);
    var r := s.rooms[ref];
    var stored := StoredRows(s.sessions, r.code);
    if u in r.away {
      SeatFiled(s, ref, u);
      if HasToken(s.sessions, r.away[u]) {
        var t :| t in s.sessions && s.sessions[t].session == r.away[u];
        assert StoredRow(s.sessions, t) in stored;
      }
      forall x | x in stored && x.seat.user == u ensures HasToken(s.sessions, r.away[u]) {
        var t :| t in s.sessions && s.sessions[t].session.code == r.code && x == StoredRow(s.sessions, t);
        assert Stands(s.sessions[t].session, s.rooms, s.registry);
      }
    }
  }

  /** Nobody was there, or somebody comes back. */
  ghost predicate Peopled(s: State, ref: Ref)
  {
    Registered(s, ref) && (Deserted(s.rooms[ref]) || exists w :: Borne(s, ref, w))
  }

  lemma SeatRecorded(s: State, ref: Ref, rec: Record)
    requires Inv(s) && Peopled(s, ref) && Snapped(rec, s, s.rooms[ref].code)
    ensures Recorded(rec, s.rooms[ref], s.conns, StoredRows(s.sessions, s.rooms[ref].code))
  {
    hide Inv, Parted;
    var r := s.rooms[ref];
    forall v | v in r.clients
      ensures r.clients[v] in s.conns && s.conns[r.clients[v]].token.Some? && s.conns[r.clients[v]].token.value != []
    {
      assert Bears(s, s.conns[r.clients[v]].token.value, ref, v);
      BearerFacts(s, s.conns[r.clients[v]].token.value, ref, v);
    }
    InvIssued(s);
    if Deserted(r) {
      SavedHosts(r, s.conns);
    } else {
      var w :| Borne(s, ref, w);
      BorneRow(s, ref, w, rec);
    }
  }

  lemma BorneRow(s: State, ref: Ref, w: UserId, rec: Record)
    requires Inv(s) && Registered(s, ref) && Borne(s, ref, w) && Snapped(rec, s, s.rooms[ref].code)
    ensures rec.rows != []
  {
    hide Inv, Parted, SavedAway;
    var r := s.rooms[ref];
    BorneIsSaved(s, ref, w);
    if w in r.clients {
      assert LiveRow(r, s.conns, w) in LiveRows(r, s.conns);
      assert LiveRow(r, s.conns, w) in Elements(rec.rows);
    } else {
      var x :| x in StoredRows(s.sessions, r.code) && x.seat.user == w;
      assert x in Elements(rec.rows);
    }
  }

  lemma SeatUser(s: State, ref: Ref, u: UserId)
    requires Inv(s) && ref in s.rooms && u in s.rooms[ref].away
    ensures s.rooms[ref].away[u].user == u && s.rooms[ref].away[u].code == s.rooms[ref].code
            && u !in s.rooms[ref].clients
  {
    hide RegInv, RoomsInv, LinkInv, ClosingInv, TokensOk;
    SeatFiled(s, ref, u);
  }

  lemma InvIssued(s: State)
    requires Inv(s)
    ensures [] !in s.sessions && [] in s.usedTokens && forall t :: t in s.sessions ==> t in s.usedTokens
  {
    hide RoomsOk, ClosingInv, Backed, Separate, Covered, Carried, AttemptInv, HistoryInv;
  }

  ghost function Comers(s: State, ref: Ref): set<UserId>
    requires ref in s.rooms
  {
    set u | u in s.rooms[ref].clients.Keys + s.rooms[ref].away.Keys && Borne(s, ref, u)
  }

  /** Host, owner and every author of an open suggestion come back. */
  ghost predicate RolesBorne(s: State, ref: Ref)
    requires ref in s.rooms
  {
    var r := s.rooms[ref];
    && (r.hostId.Some? && Comers(s, ref) != {} ==> Borne(s, ref, r.hostId.value))
    && (r.owner.Some? ==> Borne(s, ref, r.owner.value))
    && (forall x :: x in r.suggestions ==> Borne(s, ref, r.suggestions[x].author))
  }

  lemma RolesAgree(s: State, ref: Ref)
    requires Inv(s) && Registered(s, ref)
    ensures var stored := StoredRows(s.sessions, s.rooms[ref].code);
            Back(s.rooms[ref], stored) == Comers(s, ref) && (RolesSaved(s.rooms[ref], stored) <==> RolesBorne(s, ref))
  {
    hide Inv, Saved, Borne;
    forall u ensures Saved(s.rooms[ref], StoredRows(s.sessions, s.rooms[ref].code), u) <==> Borne(s, ref, u) {
      BorneIsSaved(s, ref, u);
    }
  }

  /** The room a snapshot restores for ref: who comes back, and when it is sound. */
  lemma RestoredMembers(s: State, ref: Ref, rec: Record, flushed: Option<Time>, now: Time, nowMs: int)
    requires Inv(s) && Peopled(s, ref) && Snapped(rec, s, s.rooms[ref].code)
    ensures var r, q := s.rooms[ref], Restored(rec, flushed, now, nowMs);
            && q.code == r.code && q.clients == map[] && q.pending == map[] && q.away.Keys == Comers(s, ref)
            && (forall u :: u in q.away ==> Holds(s, ref, u, q.away[u], flushed, now))
            && (RoomInv(q, map[]) <==> RolesBorne(s, ref))
  {
    hide Restored, SeatAfter, RoomInv, Recorded, Back, Borne, RolesBorne, RolesSaved, GoneFrom, ListAfter;
    var r := s.rooms[ref];
    var stored := StoredRows(s.sessions, r.code);
    SeatRecorded(s, ref, rec);
    InvRoom(s, ref);
    RoomParts(r, s.conns);
    RolesAgree(s, ref);
    hide Inv, Roster, MailInv;
    MembersSurvive(rec, r, s.conns, stored, flushed, now, nowMs);
    RoomSurvives(rec, r, s.conns, map[], stored, flushed, now, nowMs);
  }

  lemma InvRoom(s: State, ref: Ref)
    requires Inv(s) && Registered(s, ref)
    ensures RoomInv(s.rooms[ref], s.conns)
  {
    hide RegInv, LinkInv, ClosingInv, TokensOk, RoomInv;
  }

  lemma RoomParts(r: Room, conns: Conns)
    requires RoomInv(r, conns)
    ensures Roster(r) && MailInv(r)
  {
    hide Roster, HostInv, MailInv;
  }

  /** Every restored room, from the state it was recorded in. */
  ghost predicate Reseated(s: State, t: State, flushed: Option<Time>, now: Time)
  {
    && t.rooms.Keys == (set ref | ref in s.rooms && Registered(s, ref)) && t.registry == s.registry
    && forall ref :: ref in t.rooms ==>
         && t.rooms[ref].code == s.rooms[ref].code && t.rooms[ref].clients == map[] && t.rooms[ref].pending == map[]
         && t.rooms[ref].away.Keys == Comers(s, ref)
         && (forall u :: u in t.rooms[ref].away ==> Holds(s, ref, u, t.rooms[ref].away[u], flushed, now))
         && (RoomInv(t.rooms[ref], t.conns) <==> RolesBorne(s, ref))
  }

  ghost predicate AllPeopled(s: State) { forall ref :: Registered(s, ref) ==> Peopled(s, ref) }

  lemma BootReseats(s: State, records: map<Code, Record>, tokens: map<Token, Session>, ids: map<Token, SessionRef>,
                    n: nat, flushed: Option<Time>, now: Time, nowMs: int)
    requires Inv(s) && AllPeopled(s) && IsSnapshot(records, s) && ids.Keys == tokens.Keys
    ensures Reseated(s, Booted(s, records, tokens, ids, n, flushed, now, nowMs), flushed, now)
  {
    hide Inv, Peopled, Snapped, RoomInv, Holds, Restored, Comers, RolesBorne;
    var t := Booted(s, records, tokens, ids, n, flushed, now, nowMs);
    forall ref | ref in t.rooms ensures
      && t.rooms[ref].code == s.rooms[ref].code && t.rooms[ref].clients == map[] && t.rooms[ref].pending == map[]
      && t.rooms[ref].away.Keys == Comers(s, ref)
      && (forall u :: u in t.rooms[ref].away ==> Holds(s, ref, u, t.rooms[ref].away[u], flushed, now))
      && (RoomInv(t.rooms[ref], t.conns) <==> RolesBorne(s, ref))
    {
      assert Snapped(records[s.rooms[ref].code], s, s.rooms[ref].code);
      RestoredMembers(s, ref, records[s.rooms[ref].code], flushed, now, nowMs);
    }
  }

  lemma BootRooms(s: State, t: State, flushed: Option<Time>, now: Time)
    requires Inv(s) && Reseated(s, t, flushed, now) && t.conns == map[] && t.closing == {} && t.usedIds == s.usedIds
    requires forall ref :: Registered(s, ref) ==> RolesBorne(s, ref)
    ensures RoomsOk(t) && ClosingInv(t)
  {
    hide Inv, RoomInv, Holds, Vacant, RolesBorne, Comers;
    assert RegInv(t) by {
      forall code | code in t.registry ensures t.registry[code] in t.rooms && t.rooms[t.registry[code]].code == code {
        InvCode(s, code);
      }
    }
    assert RoomsInv(t);
    assert Linking(t) by { hide RegInv, RoomsInv; BootLinks(s, t, flushed, now); }
  }

  lemma BootLinks(s: State, t: State, flushed: Option<Time>, now: Time)
    requires Inv(s) && Reseated(s, t, flushed, now) && t.conns == map[] && t.usedIds == s.usedIds
    ensures Linking(t)
  {
    hide Inv, RoomInv, Holds, RolesBorne, Borne;
    forall x, u | MemberIn(t.rooms, x, u) ensures MemberIn(s.rooms, x, u) {
    }
    InvMembers(s);
    hide MemberIn;
  }

  lemma InvMembers(s: State)
    requires Inv(s)
    ensures OneHome(s.rooms) && forall x, u :: MemberIn(s.rooms, x, u) ==> u in s.usedIds
  {
    hide RegInv, RoomsInv, ClosingInv, TokensOk, Linked, BackLinked, Applicants, OneHome, MemberIn;
  }

  /** A restored session names its member and room. */
  lemma HolderIsNamed(s: State, ref: Ref, u: UserId, x: Session, flushed: Option<Time>, now: Time)
    requires Inv(s) && Holds(s, ref, u, x, flushed, now)
    ensures x.user == u && x.code == s.rooms[ref].code
  {
    hide Inv;
    if u !in s.rooms[ref].clients { SeatUser(s, ref, u); }
  }

  /** The restored token table. */
  ghost predicate Retokened(s: State, t: State, tokens: map<Token, Session>, ids: map<Token, SessionRef>, n: nat)
  {
    && Numbers(ids, tokens, n) && t.nextSession == n && t.usedTokens == s.usedTokens
    && t.sessions.Keys == tokens.Keys && (forall v :: v in tokens ==> t.sessions[v] == Entry(tokens[v], ids[v], false))
  }

  lemma BootBacked(s: State, t: State, tokens: map<Token, Session>, ids: map<Token, SessionRef>, n: nat,
                   flushed: Option<Time>, now: Time)
    requires Inv(s) && Reseated(s, t, flushed, now) && Returns(s, tokens, flushed, now)
             && Retokened(s, t, tokens, ids, n)
    ensures Backed(t)
  {
    hide Inv, Reseated, Holds, Bears, Numbers, Stands;
    forall v | v in t.sessions ensures Stands(t.sessions[v].session, t.rooms, t.registry) {
      var ref, u :| Bears(s, v, ref, u) && Holds(s, ref, u, tokens[v], flushed, now);
      HolderStands(s, t, v, ref, u, tokens[v], flushed, now);
    }
  }

  lemma HolderStands(s: State, t: State, v: Token, ref: Ref, u: UserId, x: Session, flushed: Option<Time>, now: Time)
    requires Inv(s) && Reseated(s, t, flushed, now) && Bears(s, v, ref, u) && Holds(s, ref, u, x, flushed, now)
    ensures Stands(x, t.rooms, t.registry)
  {
    hide Inv, RoomInv, SeatAfter, RolesBorne;
    HolderIsNamed(s, ref, u, x, flushed, now);
    assert Borne(s, ref, u);
    assert Holds(s, ref, u, t.rooms[ref].away[u], flushed, now);
  }

  lemma BootSeparate(s: State, t: State, tokens: map<Token, Session>, ids: map<Token, SessionRef>, n: nat,
                     flushed: Option<Time>, now: Time)
    requires Inv(s) && Returns(s, tokens, flushed, now) && Retokened(s, t, tokens, ids, n)
    ensures Separate(t.sessions)
  {
    hide Inv, Bears, Holds, Taken;
    forall v, w | v in t.sessions && w in t.sessions && v != w
      ensures t.sessions[v].session.user != t.sessions[w].session.user && t.sessions[v].ref != t.sessions[w].ref
    {
      var ref, u :| Bears(s, v, ref, u) && Holds(s, ref, u, tokens[v], flushed, now);
      var ref', u' :| Bears(s, w, ref', u') && Holds(s, ref', u', tokens[w], flushed, now);
      HolderIsNamed(s, ref, u, tokens[v], flushed, now);
      HolderIsNamed(s, ref', u', tokens[w], flushed, now);
      if u == u' { BearersApart(s, v, ref, u, w, ref', u'); }
    }
  }

  /** Whoever comes back bears a token. */
  lemma SeatHasBearer(s: State, ref: Ref, u: UserId) returns (v: Token)
    requires Inv(s) && Registered(s, ref) && Borne(s, ref, u)
    ensures Bears(s, v, ref, u)
  {
    hide Inv;
    if u in s.rooms[ref].clients {
      SoundIsWhole(s);
      InvCode(s, s.rooms[ref].code);
      assert WholeRoom(s, ref, s.rooms[ref].code);
      v := s.conns[s.rooms[ref].clients[u]].token.value;
    } else {
      v :| v in s.sessions && s.sessions[v].session == s.rooms[ref].away[u];
    }
  }

  lemma BootCovered(s: State, t: State, tokens: map<Token, Session>, ids: map<Token, SessionRef>, n: nat,
                    flushed: Option<Time>, now: Time)
    requires Inv(s) && Reseated(s, t, flushed, now) && Returns(s, tokens, flushed, now)
             && Retokened(s, t, tokens, ids, n)
    ensures Covered(t)
  {
    hide Inv, RoomInv, SeatAfter, Numbers, Bears, Borne, RolesBorne;
    forall ref, u | ref in t.rooms && u in t.rooms[ref].away ensures HasToken(t.sessions, t.rooms[ref].away[u]) {
      var v := SeatHasBearer(s, ref, u);
      var ref', u' :| Bears(s, v, ref', u') && Holds(s, ref', u', tokens[v], flushed, now);
      BearersApart(s, v, ref, u, v, ref', u');
      assert Holds(s, ref, u, t.rooms[ref].away[u], flushed, now);
      assert t.sessions[v].session == t.rooms[ref].away[u];
    }
  }

  lemma BootIssued(s: State, t: State, tokens: map<Token, Session>, ids: map<Token, SessionRef>, n: nat,
                   flushed: Option<Time>, now: Time)
    requires Inv(s) && Returns(s, tokens, flushed, now) && Retokened(s, t, tokens, ids, n)
    ensures Issued(t)
  {
    hide Inv, Bears, Holds, Taken;
    InvIssued(s);
    forall v | v in tokens ensures v != [] && v in s.usedTokens {
      var ref, u :| Bears(s, v, ref, u) && Holds(s, ref, u, tokens[v], flushed, now);
      BearerFacts(s, v, ref, u);
    }
  }

  lemma BootHistory(s: State, t: State, tokens: map<Token, Session>, ids: map<Token, SessionRef>, n: nat)
    requires Retokened(s, t, tokens, ids, n) && t.attempts == map[] && t.consumed == {} && t.revoked == {}
    ensures AttemptInv(t) && HistoryInv(t)
  {
    forall x: SessionRef | x < n ensures OnFile(t.sessions, x) {
      assert Taken(ids, x);
      var v :| v in ids && ids[v] == x;
      assert t.sessions[v].ref == x;
    }
  }

  /** A recoverable state has everybody it needs. */
  lemma RecoverableMeans(s: State)
    requires Inv(s) && Recoverable(s)
    ensures AllPeopled(s) && forall ref :: Registered(s, ref) ==> RolesBorne(s, ref)
  {
    hide Inv, RoomInv, HasToken;
    forall ref | Registered(s, ref) ensures Peopled(s, ref) && RolesBorne(s, ref) {
      InvRoom(s, ref);
      RoomRecovers(s, ref);
    }
  }

  lemma RoomRecovers(s: State, ref: Ref)
    requires Registered(s, ref) && RoomInv(s.rooms[ref], s.conns)
    requires forall u :: u in s.rooms[ref].away && !Borne(s, ref, u) ==> Expendable(s, ref, u)
    ensures Peopled(s, ref) && RolesBorne(s, ref)
  {
    hide Roster, By, HasToken;
    var r := s.rooms[ref];
    if !Deserted(r) {
      if r.clients != map[] {
        var u :| u in r.clients;
        assert Borne(s, ref, u);
      } else {
        var u :| u in r.away;
        assert Borne(s, ref, u) || Expendable(s, ref, u);
      }
    }
  }

  /** From the snapshot of a recoverable sound state, the restored state is sound. */
  lemma RestartIsSound(s: State, records: map<Code, Record>, tokens: map<Token, Session>, ids: map<Token, SessionRef>,
                       n: nat, flushed: Option<Time>, now: Time, nowMs: int)
    requires Inv(s) && Recoverable(s) && IsSnapshot(records, s) && Loaded(records, flushed, now, tokens)
             && Numbers(ids, tokens, n)
    ensures Inv(Booted(s, records, tokens, ids, n, flushed, now, nowMs))
  {
    hide RoomsOk, ClosingInv, TokensOk, Recoverable, AllPeopled, Reseated, Returns, Taken, IsSnapshot, Loaded,
      Backed, Separate, Covered, Issued, AttemptInv, HistoryInv, Restored, RolesBorne;
    var t := Booted(s, records, tokens, ids, n, flushed, now, nowMs);
    RecoverableMeans(s);
    BootReseats(s, records, tokens, ids, n, flushed, now, nowMs);
    SnapshotReturns(s, records, tokens, flushed, now);
    BootRooms(s, t, flushed, now);
    BootBacked(s, t, tokens, ids, n, flushed, now);
    BootSeparate(s, t, tokens, ids, n, flushed, now);
    BootCovered(s, t, tokens, ids, n, flushed, now);
    BootIssued(s, t, tokens, ids, n, flushed, now);
    BootHistory(s, t, tokens, ids, n);
    BootDone(t);
  }

  // ---- what an unrecoverable snapshot loses ----

  /** If nobody bears a token, the seats come back without one. */
  lemma NobodyBorne(s: State, ref: Ref, rec: Record, flushed: Option<Time>, now: Time, nowMs: int, u: UserId)
    requires Inv(s) && Registered(s, ref) && Snapped(rec, s, s.rooms[ref].code) && u in s.rooms[ref].away
    requires forall w :: !Borne(s, ref, w)
    ensures var q := Restored(rec, flushed, now, nowMs);
            u in q.away && q.away[u].user == u && q.away[u].code == s.rooms[ref].code
  {
    hide Inv, RestoredPlay, RestoredStamp, KeptUsers, Filed, Parted, HasToken, HasRow;
    var r := s.rooms[ref];
    assert r.clients == map[] by { assert forall w :: w in r.clients ==> Borne(s, ref, w); }
    assert rec.rows == [] by { NoRows(s, ref, rec); }
    SeatUser(s, ref, u);
  }

  lemma NoRows(s: State, ref: Ref, rec: Record)
    requires Inv(s) && Registered(s, ref) && Snapped(rec, s, s.rooms[ref].code) && forall w :: !Borne(s, ref, w)
    ensures rec.rows == []
  {
    hide Inv, Parted, SavedAway, HasToken;
    var r := s.rooms[ref];
    assert r.clients == map[] by { assert forall w :: w in r.clients ==> Borne(s, ref, w); }
    if rec.rows != [] {
      var x := rec.rows[0];
      assert x in Elements(rec.rows);
      assert x in StoredRows(s.sessions, r.code);
      StoredSeat(s, ref, x);
      BorneIsSaved(s, ref, x.seat.user);
    }
  }

  lemma StoredSeat(s: State, ref: Ref, x: Row)
    requires Inv(s) && Registered(s, ref) && x in StoredRows(s.sessions, s.rooms[ref].code)
    ensures x.token != [] && Saved(s.rooms[ref], StoredRows(s.sessions, s.rooms[ref].code), x.seat.user)
  {
    hide Inv, RoomsOk, ClosingInv, TokensOk;
    InvParts(s);
    TokensBacked(s);
    InvIssued(s);
    var t :| t in s.sessions && s.sessions[t].session.code == s.rooms[ref].code && x == StoredRow(s.sessions, t);
    assert Stands(s.sessions[t].session, s.rooms, s.registry);
  }

  /** A seat without a token breaks the token invariant. */
  lemma UncoveredBreaks(s: State, t: State, tokens: map<Token, Session>, ids: map<Token, SessionRef>, n: nat,
                        flushed: Option<Time>, now: Time, ref: Ref, u: UserId)
    requires Inv(s) && Returns(s, tokens, flushed, now) && Retokened(s, t, tokens, ids, n) && t.expiring == {}
    requires Registered(s, ref) && ref in t.rooms && u in t.rooms[ref].away && !Borne(s, ref, u)
    requires t.rooms[ref].away[u].user == u && t.rooms[ref].away[u].code == s.rooms[ref].code
    ensures !Covered(t)
  {
    hide Inv, Bears, SeatAfter, Numbers, Borne;
    forall v | v in t.sessions ensures t.sessions[v].session != t.rooms[ref].away[u] {
      var ref', u' :| Bears(s, v, ref', u') && Holds(s, ref', u', tokens[v], flushed, now);
      HolderIsNamed(s, ref', u', tokens[v], flushed, now);
      if u' == u && s.rooms[ref'].code == s.rooms[ref].code { BearerComes(s, v, ref', u, ref); }
    }
    assert !HasToken(t.sessions, t.rooms[ref].away[u]);
  }

  lemma BearerComes(s: State, v: Token, ref': Ref, u: UserId, ref: Ref)
    requires Bears(s, v, ref', u) && Registered(s, ref) && s.rooms[ref'].code == s.rooms[ref].code
    ensures Borne(s, ref, u)
  {
  }

  lemma NotCovered(t: State)
    requires !Covered(t)
    ensures !Inv(t)
  {
    hide RoomsOk, ClosingInv, Backed, Separate, Covered, Carried, Issued, AttemptInv, HistoryInv;
  }

  lemma NotSoundRoom(t: State, ref: Ref)
    requires Registered(t, ref) && !RoomInv(t.rooms[ref], t.conns)
    ensures !Inv(t)
  {
    hide RegInv, LinkInv, ClosingInv, TokensOk, RoomInv;
  }

  /** A snapshot that is not recoverable restores a server that breaks the invariant. */
  lemma RestartBreaks(s: State, t: State, records: map<Code, Record>, tokens: map<Token, Session>,
                      ids: map<Token, SessionRef>, n: nat, flushed: Option<Time>, now: Time, nowMs: int, ref: Ref,
                      u: UserId)
    requires Inv(s) && IsSnapshot(records, s) && Loaded(records, flushed, now, tokens) && Numbers(ids, tokens, n)
    requires t == Booted(s, records, tokens, ids, n, flushed, now, nowMs)
    requires Registered(s, ref) && u in s.rooms[ref].away && !Borne(s, ref, u) && !Expendable(s, ref, u)
    ensures !Inv(t)
  {
    hide Inv, Borne, Restored, Snapped, Loaded, Returns, Numbers, RoomInv, Covered;
    var rec := records[s.rooms[ref].code];
    assert Snapped(rec, s, s.rooms[ref].code);
    assert t.rooms[ref] == Restored(rec, flushed, now, nowMs);
    if exists w :: Borne(s, ref, w) {
      RestoredMembers(s, ref, rec, flushed, now, nowMs);
      assert !RolesBorne(s, ref) by { RolesLost(s, ref, u); }
      NotSoundRoom(t, ref);
    } else {
      SnapshotReturns(s, records, tokens, flushed, now);
      NobodyBorne(s, ref, rec, flushed, now, nowMs, u);
      UncoveredBreaks(s, t, tokens, ids, n, flushed, now, ref, u);
      NotCovered(t);
    }
  }

  lemma RolesLost(s: State, ref: Ref, u: UserId)
    requires ref in s.rooms && u in s.rooms[ref].away && !Borne(s, ref, u) && !Expendable(s, ref, u)
             && exists w :: Borne(s, ref, w)
    ensures !RolesBorne(s, ref)
  {
    hide HasToken;
    var w :| Borne(s, ref, w);
    assert w in Comers(s, ref);
  }

  /** The exact condition: a restart is sound if and only if, when the snapshot was
      taken, every seat without a token was expendable. */
  lemma RestartSoundIff(s: State, records: map<Code, Record>, tokens: map<Token, Session>, ids: map<Token, SessionRef>,
                        n: nat, flushed: Option<Time>, now: Time, nowMs: int)
    requires Inv(s) && IsSnapshot(records, s) && Loaded(records, flushed, now, tokens) && Numbers(ids, tokens, n)
    ensures Inv(Booted(s, records, tokens, ids, n, flushed, now, nowMs)) <==> Recoverable(s)
  {
    hide Inv, IsSnapshot, Loaded, Taken, Booted, Borne, Expendable;
    if Recoverable(s) {
      RestartIsSound(s, records, tokens, ids, n, flushed, now, nowMs);
    } else {
      var ref, u :| Registered(s, ref) && u in s.rooms[ref].away && !Borne(s, ref, u) && !Expendable(s, ref, u);
      RestartBreaks(s, Booted(s, records, tokens, ids, n, flushed, now, nowMs), records, tokens, ids, n, flushed, now,
                    nowMs, ref, u);
    }
  }

  lemma BootDone(t: State)
    requires t.conns == map[] && t.expiring == {}
    requires Backed(t) && Separate(t.sessions) && Covered(t) && Issued(t) && AttemptInv(t) && HistoryInv(t)
    ensures TokensOk(t)
  {
    hide Backed, Separate, Covered, Issued, AttemptInv, HistoryInv;
  }

  // ---- runs across restarts ----

  /** One life of the server: a run up to the last flush, then a restart from it. */
  datatype Epoch = Epoch(run: seq<Step>, records: map<Code, Record>, tokens: map<Token, Session>,
                         ids: map<Token, SessionRef>, n: nat, flushed: Option<Time>, now: Time, nowMs: int)

  /** The life's last snapshot is loaded, whatever it lost. */
  ghost predicate CanLoad(s: State, e: Epoch)
  {
    && Regular(s, e.run) && IsSnapshot(e.records, After(s, e.run)) && Loaded(e.records, e.flushed, e.now, e.tokens)
    && Numbers(e.ids, e.tokens, e.n) && After(s, e.run).clock <= e.nowMs && Clock(e.nowMs)
  }

  ghost predicate CanReboot(s: State, e: Epoch) { CanLoad(s, e) && Recoverable(After(s, e.run)) }

  ghost function Rebooted(s: State, e: Epoch): State
    requires CanLoad(s, e)
  {
    Booted(After(s, e.run), e.records, e.tokens, e.ids, e.n, e.flushed, e.now, e.nowMs)
  }

  ghost predicate Endures(s: State, es: seq<Epoch>)
    decreases |es|
  {
    es != [] ==> CanReboot(s, es[0]) && Endures(Rebooted(s, es[0]), es[1..])
  }

  ghost function Latest(s: State, es: seq<Epoch>): State
    requires Endures(s, es)
    decreases |es|
  {
    if es == [] then s else Latest(Rebooted(s, es[0]), es[1..])
  }

  /** The whole invariant holds after any number of lives and any run since. */
  lemma {:induction false} RestartsKeep(s: State, es: seq<Epoch>, run: seq<Step>)
    requires Inv(s) && Endures(s, es) && Regular(Latest(s, es), run)
    ensures Inv(After(Latest(s, es), run))
    decreases |es|
  {
    hide Inv, Recoverable, IsSnapshot, Loaded, Numbers, Booted, Regular, After;
    if es == [] {
      RunKeeps(s, run);
    } else {
      var e := es[0];
      RunKeeps(s, e.run);
      RestartIsSound(After(s, e.run), e.records, e.tokens, e.ids, e.n, e.flushed, e.now, e.nowMs);
      RestartsKeep(Rebooted(s, e), es[1..], run);
    }
  }

  /** Every life's snapshot can be loaded. */
  ghost predicate LoadsAll(s: State, es: seq<Epoch>)
    decreases |es|
  {
    es != [] ==> CanLoad(s, es[0]) && LoadsAll(Rebooted(s, es[0]), es[1..])
  }

  ghost predicate EverSound(s: State, es: seq<Epoch>)
    requires LoadsAll(s, es)
    decreases |es|
  {
    Inv(s) && (es != [] ==> EverSound(Rebooted(s, es[0]), es[1..]))
  }

  /** Over any number of lives: every one of them starts sound if and only if each
      was recoverable when its last snapshot was taken. */
  lemma {:induction false} LivesSoundIff(s: State, es: seq<Epoch>)
    requires Inv(s) && LoadsAll(s, es)
    ensures EverSound(s, es) <==> Endures(s, es)
    decreases |es|
  {
    hide Inv, Recoverable, IsSnapshot, Loaded, Numbers, Booted, Regular, After;
    if es != [] {
      var e := es[0];
      RunKeeps(s, e.run);
      RestartSoundIff(After(s, e.run), e.records, e.tokens, e.ids, e.n, e.flushed, e.now, e.nowMs);
      if Recoverable(After(s, e.run)) {
        LivesSoundIff(Rebooted(s, e), es[1..]);
      } else {
        NeverSound(Rebooted(s, e), es[1..]);
      }
    }
  }

  lemma NeverSound(s: State, es: seq<Epoch>)
    requires LoadsAll(s, es) && !Inv(s)
    ensures !EverSound(s, es)
  {
    hide Inv, CanLoad, Booted;
  }
}
