/**
 What the flusher writes: one record per room, the same whatever order the
 room's maps are walked in.
 */
module Records {
  import opened Base
  import opened Tracks
  import opened Playback
  import opened Rooms

  /** A `Session` as written; no time marks a member who was connected. */
  datatype SavedSeat = SavedSeat(user: UserId, name: Str, code: Code, isHost: bool, at: Option<Time>)

  /** `PersistentSession`. */
  datatype Row = Row(token: Token, seat: SavedSeat)

  /** `roomRecord`; the play state carries no host sequence, which is not written. */
  datatype Record = Record(
    code: Code, hostId: Option<UserId>, owner: Option<UserId>, users: seq<UserInfo>, play: Play,
    away: map<UserId, SavedSeat>, suggestions: seq<Suggestion>, hostAway: Option<Time>, rows: seq<Row>)

  // ---- sorting by distinct keys ----

  predicate Ascending<T>(xs: seq<T>, key: T -> Str)
  {
    forall i, j :: 0 <= i < j < |xs| ==> Less(key(xs[i]), key(xs[j]))
  }

  function Elements<T>(xs: seq<T>): set<T> { set x | x in xs }

  /** xs lists exactly the elements of m, in the order of their keys. */
  predicate Listing<T>(xs: seq<T>, m: set<T>, key: T -> Str) { Ascending(xs, key) && Elements(xs) == m }

  /** There is only one such list, so the order of map iteration leaves no trace. */
  lemma {:induction false} ListingUnique<T>(xs: seq<T>, ys: seq<T>, m: set<T>, key: T -> Str)
    requires Listing(xs, m, key) && Listing(ys, m, key)
    ensures xs == ys
    decreases |xs|
  {
    if xs != [] {
      assert xs[0] in Elements(xs);
      assert ys != [];
      LeastIsFirst(xs, ys, m, key);
      TailListing(xs, m, key);
      TailListing(ys, m, key);
      ListingUnique(xs[1..], ys[1..], m - {xs[0]}, key);
      assert xs == [xs[0]] + xs[1..] && ys == [ys[0]] + ys[1..];
    } else {
      SomeElement(ys);
    }
  }

  lemma SomeElement<T>(xs: seq<T>)
    ensures xs != [] ==> Elements(xs) != {}
  {
    if xs != [] { assert xs[0] in Elements(xs); }
  }

  lemma LeastIsFirst<T>(xs: seq<T>, ys: seq<T>, m: set<T>, key: T -> Str)
    requires Listing(xs, m, key) && Listing(ys, m, key) && xs != [] && ys != []
    ensures xs[0] == ys[0]
  {
    assert xs[0] in Elements(ys) && ys[0] in Elements(xs);
    var i :| 0 <= i < |ys| && ys[i] == xs[0];
    var j :| 0 <= j < |xs| && xs[j] == ys[0];
    if i > 0 && j > 0 { LessAsymmetric(key(xs[0]), key(ys[0])); }
  }

  lemma TailListing<T>(xs: seq<T>, m: set<T>, key: T -> Str)
    requires Listing(xs, m, key) && xs != []
    ensures Listing(xs[1..], m - {xs[0]}, key)
  {
    var t := xs[1..];
    assert xs == [xs[0]] + t;
    forall i | 0 <= i < |t| ensures t[i] != xs[0] {
      LessIrreflexive(key(xs[0]));
      assert Less(key(xs[0]), key(xs[i + 1]));
    }
    assert Elements(t) == m - {xs[0]};
  }

  /** `sort.Slice` on distinct keys: insert each element before the first larger one. */
  method Sort<T>(xs: seq<T>, key: T -> Str) returns (ys: seq<T>)
    requires forall i, j :: 0 <= i < j < |xs| ==> key(xs[i]) != key(xs[j])
    ensures Listing(ys, Elements(xs), key)
  {
    ys := [];
    for n := 0 to |xs|
      invariant Listing(ys, Elements(xs[..n]), key)
    {
      var x := xs[n];
      assert xs[..n + 1] == xs[..n] + [x];
      forall y | y in ys ensures key(y) != key(x) { assert y in Elements(xs[..n]); }
      ys := Insert(ys, x, key);
      assert Elements(xs[..n + 1]) == Elements(xs[..n]) + {x};
    }
    assert xs[..|xs|] == xs;
  }

  method Insert<T>(xs: seq<T>, x: T, key: T -> Str) returns (ys: seq<T>)
    requires Ascending(xs, key) && forall y :: y in xs ==> key(y) != key(x)
    ensures Listing(ys, Elements(xs) + {x}, key)
  {
    var k := 0;
    while k < |xs| && Less(key(xs[k]), key(x))
      invariant 0 <= k <= |xs| && forall i :: 0 <= i < k ==> Less(key(xs[i]), key(x))
    {
      k := k + 1;
    }
    ys := xs[..k] + [x] + xs[k..];
    forall i | k <= i < |xs| ensures Less(key(x), key(xs[i])) {
      LessTotal(key(xs[k]), key(x));
      if i > k { LessTransitive(key(x), key(xs[k]), key(xs[i])); }
    }
    assert Elements(ys) == Elements(xs) + {x} by { assert xs == xs[..k] + xs[k..]; }
  }

  // ---- one room ----

  /** The user list with everybody disconnected. */
  function Parted(us: seq<UserInfo>): seq<UserInfo>
  {
    if us == [] then [] else [us[0].(isConnected := false)] + Parted(us[1..])
  }

  function SeatOf(x: Session): SavedSeat { SavedSeat(x.user, x.name, x.code, x.isHost, Some(x.at)) }

  /** Every client is a connection that carries a token. */
  predicate Tokened(r: Room, conns: Conns)
  {
    forall u :: u in r.clients ==> r.clients[u] in conns && conns[r.clients[u]].token.Some?
  }

  /** A connected member as written: a seat without a time. */
  function LiveSeat(r: Room, conns: Conns, u: UserId): SavedSeat
    requires u in r.clients && r.clients[u] in conns
  {
    SavedSeat(u, conns[r.clients[u]].name, r.code, r.hostId == Some(u), None)
  }

  function LiveRow(r: Room, conns: Conns, u: UserId): Row
    requires Tokened(r, conns) && u in r.clients
  {
    Row(conns[r.clients[u]].token.value, LiveSeat(r, conns, u))
  }

  function RowsFor(r: Room, conns: Conns, us: set<UserId>): set<Row>
    requires Tokened(r, conns) && us <= r.clients.Keys
  {
    set u | u in us :: LiveRow(r, conns, u)
  }

  function LiveRows(r: Room, conns: Conns): set<Row>
    requires Tokened(r, conns)
  {
    RowsFor(r, conns, r.clients.Keys)
  }

  /** The reserved seats, and those of the connected members in us. */
  function SavedFor(r: Room, conns: Conns, us: set<UserId>): map<UserId, SavedSeat>
    requires Tokened(r, conns) && us <= r.clients.Keys
  {
    map u | u in r.away.Keys + us :: if u in us then LiveSeat(r, conns, u) else SeatOf(r.away[u])
  }

  function SavedAway(r: Room, conns: Conns): map<UserId, SavedSeat>
    requires Tokened(r, conns)
  {
    SavedFor(r, conns, r.clients.Keys)
  }

  lemma SaveOne(r: Room, conns: Conns, us: set<UserId>, u: UserId)
    requires Tokened(r, conns) && us <= r.clients.Keys && u in r.clients
    ensures SavedFor(r, conns, us + {u}) == SavedFor(r, conns, us)[u := LiveSeat(r, conns, u)]
    ensures RowsFor(r, conns, us + {u}) == RowsFor(r, conns, us) + {LiveRow(r, conns, u)}
  {
  }

  const RowKey: Row -> Str := (x: Row) => x.token
  const SuggestionKey: Suggestion -> Str := (x: Suggestion) => x.id

  /** The record of a room whose stored tokens are the rows given. */
  ghost predicate IsRecord(rec: Record, r: Room, conns: Conns, stored: set<Row>)
    requires Tokened(r, conns)
  {
    && rec.code == r.code && rec.hostId == r.hostId && rec.owner == r.owner && rec.hostAway == r.hostAway
    && rec.users == Parted(r.users) && rec.play == r.play.(lastHostSeq := 0)
    && rec.away == SavedAway(r, conns)
    && Listing(rec.rows, stored + LiveRows(r, conns), RowKey)
    && Listing(rec.suggestions, r.suggestions.Values, SuggestionKey)
  }

  /** Equal states have equal records. */
  lemma RecordUnique(a: Record, b: Record, r: Room, conns: Conns, stored: set<Row>)
    requires Tokened(r, conns) && IsRecord(a, r, conns, stored) && IsRecord(b, r, conns, stored)
    ensures a == b
  {
    ListingUnique(a.rows, b.rows, stored + LiveRows(r, conns), RowKey);
    ListingUnique(a.suggestions, b.suggestions, r.suggestions.Values, SuggestionKey);
  }

  /** No two rows of the room share a token. */
  ghost predicate TokensApart(r: Room, conns: Conns, stored: seq<Row>)
    requires Tokened(r, conns)
  {
    && (forall i, j :: 0 <= i < j < |stored| ==> stored[i].token != stored[j].token)
    && (forall i, u :: 0 <= i < |stored| && u in r.clients ==> stored[i].token != LiveRow(r, conns, u).token)
    && (forall u, v :: u in r.clients && v in r.clients && u != v ==>
         LiveRow(r, conns, u).token != LiveRow(r, conns, v).token)
  }

  method PartUsers(us: seq<UserInfo>) returns (r: seq<UserInfo>)
    ensures r == Parted(us)
  {
    r := [];
    for i := 0 to |us|
      invariant r == Parted(us[..i])
    {
      assert us[..i + 1] == us[..i] + [us[i]];
      PartedAppend(us[..i], us[i]);
      r := r + [us[i].(isConnected := false)];
    }
    assert us[..|us|] == us;
  }

  lemma {:induction false} PartedAppend(us: seq<UserInfo>, x: UserInfo)
    ensures Parted(us + [x]) == Parted(us) + [x.(isConnected := false)]
  {
    if us == [] {
      assert us + [x] == [x] && [x][1..] == [];
    } else {
      assert (us + [x])[1..] == us[1..] + [x];
      PartedAppend(us[1..], x);
    }
  }

  /** The connection carries no token, or an empty one. */
  predicate Lacks(k: Conn) { k.token.None? || k.token.value == [] }

  /** A generated token is at hand for every client without one. */
  predicate Supplied(r: Room, conns: Conns, spare: map<UserId, Token>)
  {
    Keyed(r, conns) && forall u :: u in r.clients && Lacks(conns[r.clients[u]]) ==> u in spare
  }

  function WithToken(k: Conn, u: UserId, spare: map<UserId, Token>): Conn
    requires Lacks(k) ==> u in spare
  {
    if Lacks(k) then k.(token := Some(spare[u])) else k
  }

  /** The connections once every client has a token. */
  function Provided(r: Room, conns: Conns, spare: map<UserId, Token>): (conns': Conns)
    requires Supplied(r, conns, spare)
    ensures Tokened(r, conns')
  {
    map c | c in conns ::
      if conns[c].id in r.clients && r.clients[conns[c].id] == c then WithToken(conns[c], conns[c].id, spare) else conns[c]
  }

  /** `persistRoomLocked`; `rows` are the stored tokens of the room in any order,
      and clients without a token get a new one on the way. */
  method PersistRoom(r: Room, conns: Conns, rows: seq<Row>, spare: map<UserId, Token>) returns (rec: Record,
                     conns': Conns)
    requires Supplied(r, conns, spare) && TokensApart(r, Provided(r, conns, spare), rows)
    requires forall x :: x in r.suggestions ==> r.suggestions[x].id == x
    ensures conns' == Provided(r, conns, spare) && IsRecord(rec, r, conns', Elements(rows))
  {
    var users := PartUsers(r.users);
    var away, all;
    away, all, conns' := SaveMembers(r, conns, rows, spare);
    var sorted := Sort(all, RowKey);
    var list := ListSuggestions(r.suggestions);
    var sugs := Sort(list, SuggestionKey);
    rec := Record(r.code, r.hostId, r.owner, users, r.play.(lastHostSeq := 0), away, sugs, r.hostAway, sorted);
  }

  /** The clients in done have their tokens, the others are as before. */
  ghost predicate Underway(r: Room, before: Conns, now: Conns, after: Conns, done: set<UserId>)
  {
    && now.Keys == before.Keys == after.Keys
    && forall c :: c in before ==>
         now[c] == if before[c].id in done && before[c].id in r.clients && r.clients[before[c].id] == c then after[c] else before[c]
  }

  lemma UnderwayStep(r: Room, conns: Conns, now: Conns, spare: map<UserId, Token>, done: set<UserId>, u: UserId)
    requires Supplied(r, conns, spare) && Underway(r, conns, now, Provided(r, conns, spare), done) && u in r.clients
             && u !in done
    ensures r.clients[u] in now && now[r.clients[u]] == conns[r.clients[u]]
            && (Lacks(conns[r.clients[u]]) ==> u in spare)
    ensures var c := r.clients[u]; var k := WithToken(conns[c], u, spare);
            && k == Provided(r, conns, spare)[c] && k.token.Some?
            && Underway(r, conns, now[c := k], Provided(r, conns, spare), done + {u})
            && LiveRow(r, Provided(r, conns, spare), u) == Row(k.token.value, SavedSeat(u, k.name, r.code, r.hostId == Some(u), None))
  {
  }

  method SaveMembers(r: Room, conns: Conns, rows: seq<Row>, spare: map<UserId, Token>)
    returns (away: map<UserId, SavedSeat>, all: seq<Row>, conns': Conns)
    requires Supplied(r, conns, spare) && TokensApart(r, Provided(r, conns, spare), rows)
    ensures conns' == Provided(r, conns, spare) && away == SavedAway(r, conns')
    ensures Elements(all) == Elements(rows) + LiveRows(r, conns')
    ensures forall i, j :: 0 <= i < j < |all| ==> RowKey(all[i]) != RowKey(all[j])
  {
    hide LiveRow, LiveSeat, Provided, Underway, Supplied, TokensApart, Tokened, WithToken, RowsFor, SavedFor, Elements,
      Keyed;
    ghost var after := Provided(r, conns, spare);
    away, all, conns' := map u | u in r.away :: SeatOf(r.away[u]), rows, conns;
    var todo := r.clients.Keys;
    ghost var done: set<UserId> := {};
    assert Underway(r, conns, conns', after, done) by { UnderwayStart(r, conns, spare); }
    NobodySaved(r, after, rows);
    while todo != {}
      invariant todo !! done && todo + done == r.clients.Keys
      invariant Underway(r, conns, conns', after, done)
      invariant away == SavedFor(r, after, done)
      invariant Elements(all) == Elements(rows) + RowsFor(r, after, done)
      invariant forall i, j :: 0 <= i < j < |all| ==> all[i].token != all[j].token
    {
      var u :| u in todo;
      UnderwayStep(r, conns, conns', spare, done, u);
      var c := r.clients[u];
      var k := WithToken(conns'[c], u, spare);
      conns' := conns'[c := k];
      var seat := SavedSeat(u, k.name, r.code, r.hostId == Some(u), None);
      SavesLive(r, conns, spare, u);
      RowIsNew(r, after, rows, all, done, u);
      SaveOne(r, after, done, u);
      OneMore(all, Row(k.token.value, seat));
      away := away[u := seat];
      all := all + [Row(k.token.value, seat)];
      todo, done := todo - {u}, done + {u};
    }
    assert done == r.clients.Keys;
    assert conns' == after by { UnderwayEnd(r, conns, conns', spare); }
  }

  lemma RowIsNew(r: Room, conns: Conns, rows: seq<Row>, all: seq<Row>, done: set<UserId>, u: UserId)
    requires Tokened(r, conns) && TokensApart(r, conns, rows) && done <= r.clients.Keys && u in r.clients && u !in done
    requires Elements(all) == Elements(rows) + RowsFor(r, conns, done)
    ensures forall x :: x in all ==> x.token != LiveRow(r, conns, u).token
  {
    forall x | x in all ensures x.token != LiveRow(r, conns, u).token { assert x in Elements(all); }
  }

  lemma OneMore<T>(xs: seq<T>, x: T)
    ensures Elements(xs + [x]) == Elements(xs) + {x}
  {
  }

  lemma NobodySaved(r: Room, conns: Conns, rows: seq<Row>)
    requires Tokened(r, conns) && TokensApart(r, conns, rows)
    ensures SavedFor(r, conns, {}) == map u | u in r.away :: SeatOf(r.away[u])
    ensures Elements(rows) + RowsFor(r, conns, {}) == Elements(rows)
    ensures forall i, j :: 0 <= i < j < |rows| ==> rows[i].token != rows[j].token
  {
  }

  lemma UnderwayStart(r: Room, conns: Conns, spare: map<UserId, Token>)
    requires Supplied(r, conns, spare)
    ensures Underway(r, conns, conns, Provided(r, conns, spare), {})
  {
  }

  lemma UnderwayEnd(r: Room, conns: Conns, now: Conns, spare: map<UserId, Token>)
    requires Supplied(r, conns, spare) && Underway(r, conns, now, Provided(r, conns, spare), r.clients.Keys)
    ensures now == Provided(r, conns, spare)
  {
  }

  lemma SavesLive(r: Room, conns: Conns, spare: map<UserId, Token>, u: UserId)
    requires Supplied(r, conns, spare) && u in r.clients
    ensures var after := Provided(r, conns, spare);
            && r.clients[u] in after && after[r.clients[u]].name == conns[r.clients[u]].name
            && LiveSeat(r, after, u) == SavedSeat(u, conns[r.clients[u]].name, r.code, r.hostId == Some(u), None)
  {
  }

  /** Nothing changes where every client has a token. */
  lemma NothingToProvide(r: Room, conns: Conns)
    requires Keyed(r, conns) && forall u :: u in r.clients ==> !Lacks(conns[r.clients[u]])
    ensures Supplied(r, conns, map[]) && Provided(r, conns, map[]) == conns
  {
  }

  method ListSuggestions(sugs: map<SuggestionId, Suggestion>) returns (list: seq<Suggestion>)
    requires forall x :: x in sugs ==> sugs[x].id == x
    ensures Elements(list) == sugs.Values
    ensures forall i, j :: 0 <= i < j < |list| ==> SuggestionKey(list[i]) != SuggestionKey(list[j])
  {
    list := [];
    var todo := sugs.Keys;
    while todo != {}
      invariant todo <= sugs.Keys
      invariant forall x :: x in list <==> x.id in sugs && x.id !in todo && sugs[x.id] == x
      invariant forall i, j :: 0 <= i < j < |list| ==> list[i].id != list[j].id
    {
      var x :| x in todo;
      list := list + [sugs[x]];
      todo := todo - {x};
    }
    forall y | y in sugs.Values ensures y in list {
      var x :| x in sugs && sugs[x] == y;
    }
  }
}
