/** The flusher's view of the whole server (`snapshotRooms`). */
module Snapshots {
  import opened Base
  import opened Tracks
  import opened Playback
  import opened Rooms
  import opened Records
  import opened Links
  import opened Lobby
  import opened LobbyRooms
  import opened LobbyLinks
  import opened Tokens
  import opened LobbyRuns

  function StoredRow(ss: map<Token, Entry>, t: Token): Row
    requires t in ss
  {
    Row(t, SeatOf(ss[t].session))
  }

  /** The stored tokens of one room. */
  function StoredRows(ss: map<Token, Entry>, code: Code): set<Row>
  {
    set t | t in ss && ss[t].session.code == code :: StoredRow(ss, t)
  }

  /** Registered rooms are filed under their codes, every active member carries a
      token, and no two tokens are the same. */
  ghost predicate Whole(s: State)
  {
    && (forall code :: code in s.registry ==> s.registry[code] in s.rooms && WholeRoom(s, s.registry[code], code))
  }

  ghost predicate WholeRoom(s: State, ref: Ref, code: Code)
    requires ref in s.rooms
  {
    var r := s.rooms[ref];
    && r.code == code && Keyed(r, s.conns) && Tokened(r, s.conns)
    && (forall u :: u in r.clients ==> !Lacks(s.conns[r.clients[u]]))
    && (forall x :: x in r.suggestions ==> r.suggestions[x].id == x)
    && (forall u :: u in r.clients ==> s.conns[r.clients[u]].token.value !in s.sessions)
    && (forall u, v :: u in r.clients && v in r.clients && u != v ==>
         s.conns[r.clients[u]].token != s.conns[r.clients[v]].token)
  }

  lemma RoomIsWhole(s: State, ref: Ref)
    requires Linking(s) && Carried(s) && ref in s.rooms && MailInv(s.rooms[ref])
    ensures WholeRoom(s, ref, s.rooms[ref].code)
  {
    hide BackLinked, Applicants, OneHome, Known;
    var r := s.rooms[ref];
    forall u | u in r.clients
      ensures r.clients[u] in s.conns && s.conns[r.clients[u]].id == u && s.conns[r.clients[u]].room == Some(ref)
    {
    }
  }

  lemma TokensCarried(s: State)
    requires TokensOk(s)
    ensures Carried(s)
  {
    hide Carried;
  }

  lemma SoundIsWhole(s: State)
    requires Inv(s)
    ensures Whole(s)
  {
    hide LinkInv, ClosingInv, TokensOk, Carried, Roster, HostInv, MailInv, WholeRoom;
    TokensCarried(s);
    forall code | code in s.registry ensures s.registry[code] in s.rooms && WholeRoom(s, s.registry[code], code) {
      assert Registered(s, s.registry[code]);
      RoomIsWhole(s, s.registry[code]);
    }
  }

  function RowsUnder(m: map<Code, seq<Row>>, code: Code): seq<Row> { if code in m then m[code] else [] }

  /** rows lists the tokens outside todo that belong to the room. */
  predicate Grouped(rows: seq<Row>, ss: map<Token, Entry>, todo: set<Token>, code: Code)
  {
    && Distinct(rows)
    && (forall x :: x in rows ==> x.token in ss && x.token !in todo && ss[x.token].session.code == code && x == StoredRow(ss, x.token))
    && (forall t :: t in ss && t !in todo && ss[t].session.code == code ==> StoredRow(ss, t) in rows)
  }

  lemma GroupStep(rows: seq<Row>, ss: map<Token, Entry>, todo: set<Token>, code: Code, t: Token)
    requires Grouped(rows, ss, todo, code) && t in todo && t in ss
    ensures Grouped(if ss[t].session.code == code then rows + [StoredRow(ss, t)] else rows, ss, todo - {t}, code)
  {
  }

  lemma GroupDone(rows: seq<Row>, ss: map<Token, Entry>, code: Code)
    requires Grouped(rows, ss, {}, code)
    ensures Elements(rows) == StoredRows(ss, code)
  {
  }

  /** The first loop: every stored token under its room's code. */
  method GroupSessions(ss: map<Token, Entry>) returns (byRoom: map<Code, seq<Row>>)
    ensures forall code :: Elements(RowsUnder(byRoom, code)) == StoredRows(ss, code) && Distinct(RowsUnder(byRoom, code))
  {
    hide Grouped;
    byRoom := map[];
    var todo := ss.Keys;
    forall code ensures Grouped(RowsUnder(byRoom, code), ss, todo, code) { NothingGrouped(ss, code); }
    while todo != {}
      invariant todo <= ss.Keys
      invariant forall code :: Grouped(RowsUnder(byRoom, code), ss, todo, code)
    {
      var t :| t in todo;
      var home := ss[t].session.code;
      forall code
        ensures Grouped(if home == code then RowsUnder(byRoom, code) + [StoredRow(ss, t)] else RowsUnder(byRoom, code), ss, todo - {t}, code)
      {
        GroupStep(RowsUnder(byRoom, code), ss, todo, code, t);
      }
      ghost var before := byRoom;
      byRoom := byRoom[home := RowsUnder(byRoom, home) + [StoredRow(ss, t)]];
      todo := todo - {t};
      assert forall code ::
          RowsUnder(byRoom, code) ==
          if home == code then RowsUnder(before, code) + [StoredRow(ss, t)] else RowsUnder(before, code);
    }
    forall code ensures Elements(RowsUnder(byRoom, code)) == StoredRows(ss, code) && Distinct(RowsUnder(byRoom, code)) {
      GroupDone(RowsUnder(byRoom, code), ss, code);
      GroupedDistinct(RowsUnder(byRoom, code), ss, code);
    }
  }

  lemma NothingGrouped(ss: map<Token, Entry>, code: Code)
    ensures Grouped([], ss, ss.Keys, code)
  {
  }

  lemma GroupedDistinct(rows: seq<Row>, ss: map<Token, Entry>, code: Code)
    requires Grouped(rows, ss, {}, code)
    ensures Distinct(rows)
  {
  }

  predicate Distinct(rows: seq<Row>)
  {
    forall i, j :: 0 <= i < j < |rows| ==> rows[i].token != rows[j].token
  }

  lemma GroupedApart(s: State, ref: Ref, code: Code, rows: seq<Row>)
    requires ref in s.rooms && WholeRoom(s, ref, code) && Distinct(rows)
             && Elements(rows) == StoredRows(s.sessions, code)
    ensures TokensApart(s.rooms[ref], s.conns, rows)
  {
    forall i | 0 <= i < |rows| ensures rows[i].token in s.sessions {
      assert rows[i] in Elements(rows);
    }
  }

  /** `snapshotRooms`: a record of every registered room. */
  method SnapshotRooms(s: State) returns (records: map<Code, Record>)
    requires Whole(s)
    ensures IsSnapshot(records, s)
  {
    hide WholeRoom, IsRecord;
    var byRoom := GroupSessions(s.sessions);
    records := map[];
    var todo := s.registry.Keys;
    while todo != {}
      invariant todo <= s.registry.Keys && records.Keys == s.registry.Keys - todo
      invariant forall code :: code in records ==> Snapped(records[code], s, code)
    {
      var code :| code in todo;
      var rows := RowsUnder(byRoom, code);
      assert WholeRoom(s, s.registry[code], code);
      GroupedApart(s, s.registry[code], code, rows);
      WholeFacts(s, s.registry[code], code);
      NothingToProvide(s.rooms[s.registry[code]], s.conns);
      var rec, _ := PersistRoom(s.rooms[s.registry[code]], s.conns, rows, map[]);
      records := records[code := rec];
      todo := todo - {code};
    }
  }

  lemma WholeFacts(s: State, ref: Ref, code: Code)
    requires ref in s.rooms && WholeRoom(s, ref, code)
    ensures var r := s.rooms[ref];
            && Tokened(r, s.conns) && Keyed(r, s.conns)
            && (forall u :: u in r.clients ==> !Lacks(s.conns[r.clients[u]]))
            && forall x :: x in r.suggestions ==> r.suggestions[x].id == x
  {
  }

  /** rec is the record of the room registered under code. */
  ghost predicate Snapped(rec: Record, s: State, code: Code)
  {
    && code in s.registry && s.registry[code] in s.rooms && Tokened(s.rooms[s.registry[code]], s.conns)
    && IsRecord(rec, s.rooms[s.registry[code]], s.conns, StoredRows(s.sessions, code))
  }

  ghost predicate IsSnapshot(records: map<Code, Record>, s: State)
  {
    records.Keys == s.registry.Keys && forall code :: code in records ==> Snapped(records[code], s, code)
  }

  /** Two snapshots of the same state are the same. */
  lemma SnapshotUnique(a: map<Code, Record>, b: map<Code, Record>, s: State)
    requires IsSnapshot(a, s) && IsSnapshot(b, s)
    ensures a == b
  {
    hide IsRecord;
    forall code | code in a ensures a[code] == b[code] {
      assert Snapped(a[code], s, code) && Snapped(b[code], s, code);
      RecordUnique(a[code], b[code], s.rooms[s.registry[code]], s.conns, StoredRows(s.sessions, code));
    }
  }
}
