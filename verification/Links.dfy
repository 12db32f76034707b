/**
 How connections and rooms point at each other: who is active where and who is
 waiting where.
 */
module Links {
  import opened Base
  import opened Rooms

  type Seating = map<Ref, Room>

  predicate ActiveIn(rooms: Seating, ref: Ref, u: UserId, c: ConnId)
  {
    ref in rooms && u in rooms[ref].clients && rooms[ref].clients[u] == c
  }

  predicate MemberIn(rooms: Seating, ref: Ref, u: UserId)
  {
    ref in rooms && (u in rooms[ref].clients || u in rooms[ref].away)
  }

  /** A room's client is a connection with that ID that points back at the room. */
  ghost predicate Linked(conns: Conns, rooms: Seating)
  {
    forall ref, u :: ref in rooms && u in rooms[ref].clients ==>
      && rooms[ref].clients[u] in conns
      && conns[rooms[ref].clients[u]].id == u
      && conns[rooms[ref].clients[u]].room == Some(ref)
  }

  /** A connection that points at a room is that room's client. */
  ghost predicate BackLinked(conns: Conns, rooms: Seating)
  {
    forall c :: c in conns && conns[c].room.Some? ==> ActiveIn(rooms, conns[c].room.value, conns[c].id, c)
  }

  /** Applicants are filed under their own ID and know where they applied. */
  ghost predicate Applicants(conns: Conns, rooms: Seating)
  {
    forall ref, u :: ref in rooms && u in rooms[ref].pending ==>
      && rooms[ref].pending[u] in conns
      && conns[rooms[ref].pending[u]].id == u
      && conns[rooms[ref].pending[u]].pendingRoom == Some(ref)
  }

  /** Nobody is a member of two rooms. */
  ghost predicate OneHome(rooms: Seating)
  {
    forall r1, r2, u :: MemberIn(rooms, r1, u) && MemberIn(rooms, r2, u) ==> r1 == r2
  }

  ghost predicate Known(conns: Conns, rooms: Seating, used: set<UserId>)
  {
    && (forall c :: c in conns ==> conns[c].id in used)
    && (forall ref, u :: MemberIn(rooms, ref, u) ==> u in used)
  }

  ghost predicate LinkInv(conns: Conns, rooms: Seating, used: set<UserId>)
  {
    && Linked(conns, rooms) && BackLinked(conns, rooms) && Applicants(conns, rooms)
    && OneHome(rooms) && Known(conns, rooms, used)
  }

  // ---- changes that leave the seating alone ----

  /** Same clients, seats and applicants. */
  predicate SameSeating(r: Room, q: Room) { q.clients == r.clients && q.away == r.away && q.pending == r.pending }

  lemma RoomFrame(conns: Conns, rooms: Seating, used: set<UserId>, ref: Ref, q: Room)
    requires LinkInv(conns, rooms, used) && ref in rooms && SameSeating(rooms[ref], q)
    ensures LinkInv(conns, rooms[ref := q], used)
  {
    var rooms' := rooms[ref := q];
    assert forall x, u, c :: ActiveIn(rooms, x, u, c) <==> ActiveIn(rooms', x, u, c);
    assert forall x, u :: MemberIn(rooms, x, u) <==> MemberIn(rooms', x, u);
    hide ActiveIn, MemberIn;
  }

  /** Connections may change in every respect the links do not mention. */
  predicate SameLinks(k: Conn, k': Conn)
  {
    k'.id == k.id && k'.room == k.room && k'.pendingRoom == k.pendingRoom
  }

  lemma ConnFrame(conns: Conns, rooms: Seating, used: set<UserId>, c: ConnId, k: Conn)
    requires LinkInv(conns, rooms, used) && c in conns && SameLinks(conns[c], k)
    ensures LinkInv(conns[c := k], rooms, used)
  {
    hide ActiveIn, MemberIn;
  }

  lemma NewConn(conns: Conns, rooms: Seating, used: set<UserId>, c: ConnId, k: Conn)
    requires LinkInv(conns, rooms, used) && c !in conns && k.id !in used && k.room.None? && k.pendingRoom.None?
    ensures LinkInv(conns[c := k], rooms, used + {k.id})
  {
    hide ActiveIn;
  }

  lemma NewRoom(conns: Conns, rooms: Seating, used: set<UserId>, ref: Ref, q: Room)
    requires LinkInv(conns, rooms, used) && ref !in rooms && q.clients == map[] && q.away == map[] && q.pending == map[]
    ensures LinkInv(conns, rooms[ref := q], used)
  {
    var rooms' := rooms[ref := q];
    assert forall x, u, c :: ActiveIn(rooms, x, u, c) <==> ActiveIn(rooms', x, u, c);
    assert forall x, u :: MemberIn(rooms, x, u) <==> MemberIn(rooms', x, u);
    hide ActiveIn, MemberIn;
  }

  /** Some of the applicants stay, nobody is added. */
  ghost predicate Fewer(p: map<UserId, ConnId>, p': map<UserId, ConnId>)
  {
    forall u :: u in p' ==> u in p && p'[u] == p[u]
  }

  // ---- becoming active ----

  /** c becomes active in ref as u, giving up its application and, for a
      reconnect, its own ID. */
  ghost predicate Enters(conns: Conns, rooms: Seating, used: set<UserId>, ref: Ref, q: Room, c: ConnId, k: Conn,
                         u: UserId)
  {
    && ref in rooms && c in conns && u in used
    && conns[c].room.None? && k.id == u && k.room == Some(ref) && k.pendingRoom.None?
    && (conns[c].pendingRoom.None? || (conns[c].pendingRoom == Some(ref) && conns[c].id !in q.pending))
    && u !in rooms[ref].clients && q.clients == rooms[ref].clients[u := c] && q.away == rooms[ref].away - {u}
    && Fewer(rooms[ref].pending, q.pending)
    && (forall x :: MemberIn(rooms, x, u) ==> x == ref)
  }

  lemma EnterActive(rooms: Seating, rooms': Seating, ref: Ref, q: Room, c: ConnId, u: UserId)
    requires ref in rooms && rooms' == rooms[ref := q]
    requires q.clients == rooms[ref].clients[u := c] && q.away == rooms[ref].away - {u}
    ensures ActiveIn(rooms', ref, u, c)
    ensures forall x, v, d :: ActiveIn(rooms', x, v, d) ==> (x == ref && v == u && d == c) || ActiveIn(rooms, x, v, d)
    ensures forall x, v, d :: ActiveIn(rooms, x, v, d) && !(x == ref && v == u) ==> ActiveIn(rooms', x, v, d)
    ensures forall x, v :: MemberIn(rooms', x, v) ==> MemberIn(rooms, x, v) || (x == ref && v == u)
  {
  }

  lemma EnterLinks(conns: Conns, rooms: Seating, used: set<UserId>, ref: Ref, q: Room, c: ConnId, k: Conn, u: UserId,
                   conns': Conns, rooms': Seating)
    requires Linked(conns, rooms) && BackLinked(conns, rooms) && Applicants(conns, rooms)
    requires Enters(conns, rooms, used, ref, q, c, k, u) && conns' == conns[c := k] && rooms' == rooms[ref := q]
    ensures Linked(conns', rooms') && BackLinked(conns', rooms') && Applicants(conns', rooms')
  {
    assert Linked(conns', rooms') by { hide BackLinked, Applicants; }
    assert Applicants(conns', rooms') by { hide Linked, BackLinked; }
    EnterBack(conns, rooms, used, ref, q, c, k, u, conns', rooms');
  }

  lemma EnterBack(conns: Conns, rooms: Seating, used: set<UserId>, ref: Ref, q: Room, c: ConnId, k: Conn, u: UserId,
                  conns': Conns, rooms': Seating)
    requires BackLinked(conns, rooms)
    requires Enters(conns, rooms, used, ref, q, c, k, u) && conns' == conns[c := k] && rooms' == rooms[ref := q]
    ensures BackLinked(conns', rooms')
  {
    EnterActive(rooms, rooms', ref, q, c, u);
    assert forall d :: !ActiveIn(rooms, ref, u, d);
    hide ActiveIn, MemberIn;
  }

  lemma EnterHomes(conns: Conns, rooms: Seating, used: set<UserId>, ref: Ref, q: Room, c: ConnId, k: Conn, u: UserId,
                   conns': Conns, rooms': Seating)
    requires OneHome(rooms) && Known(conns, rooms, used)
    requires Enters(conns, rooms, used, ref, q, c, k, u) && conns' == conns[c := k] && rooms' == rooms[ref := q]
    ensures OneHome(rooms') && Known(conns', rooms', used)
  {
    EnterActive(rooms, rooms', ref, q, c, u);
    hide ActiveIn, MemberIn;
  }

  lemma Enter(conns: Conns, rooms: Seating, used: set<UserId>, ref: Ref, q: Room, c: ConnId, k: Conn, u: UserId)
    requires LinkInv(conns, rooms, used) && Enters(conns, rooms, used, ref, q, c, k, u)
    ensures LinkInv(conns[c := k], rooms[ref := q], used)
  {
    hide Linked, BackLinked, Applicants, OneHome, Known, Enters;
    EnterLinks(conns, rooms, used, ref, q, c, k, u, conns[c := k], rooms[ref := q]);
    EnterHomes(conns, rooms, used, ref, q, c, k, u, conns[c := k], rooms[ref := q]);
  }

  // ---- ceasing to be active ----

  /** c stops being active as u; the seat is either given up or kept reserved. */
  ghost predicate Exits(conns: Conns, rooms: Seating, ref: Ref, q: Room, c: ConnId, k: Conn, u: UserId)
  {
    && c in conns && ActiveIn(rooms, ref, u, c) && conns[c].id == u
    && k.id == u && k.room.None? && k.pendingRoom == conns[c].pendingRoom
    && q.clients == rooms[ref].clients - {u}
    && (q.away == rooms[ref].away - {u} || (u in q.away && q.away == rooms[ref].away[u := q.away[u]]))
    && Fewer(rooms[ref].pending, q.pending)
  }

  lemma ExitActive(conns: Conns, rooms: Seating, rooms': Seating, ref: Ref, q: Room, c: ConnId, k: Conn, u: UserId)
    requires Exits(conns, rooms, ref, q, c, k, u) && rooms' == rooms[ref := q]
    ensures forall x, v, d :: ActiveIn(rooms', x, v, d) ==> ActiveIn(rooms, x, v, d) && !(x == ref && v == u)
    ensures forall x, v, d :: ActiveIn(rooms, x, v, d) && !(x == ref && v == u) ==> ActiveIn(rooms', x, v, d)
    ensures forall x, v :: MemberIn(rooms', x, v) ==> MemberIn(rooms, x, v)
    ensures MemberIn(rooms, ref, u) && forall d :: ActiveIn(rooms, ref, u, d) ==> d == c
  {
  }

  lemma ExitLinks(conns: Conns, rooms: Seating, ref: Ref, q: Room, c: ConnId, k: Conn, u: UserId, conns': Conns,
                  rooms': Seating)
    requires Linked(conns, rooms) && BackLinked(conns, rooms) && Applicants(conns, rooms)
    requires Exits(conns, rooms, ref, q, c, k, u) && conns' == conns[c := k] && rooms' == rooms[ref := q]
    ensures Linked(conns', rooms') && BackLinked(conns', rooms') && Applicants(conns', rooms')
  {
    assert Linked(conns', rooms') && Applicants(conns', rooms') by { hide BackLinked; }
    assert BackLinked(conns', rooms') by {
      hide Linked, Applicants;
      ExitActive(conns, rooms, rooms', ref, q, c, k, u);
    }
  }

  lemma ExitHomes(conns: Conns, rooms: Seating, used: set<UserId>, ref: Ref, q: Room, c: ConnId, k: Conn, u: UserId,
                  conns': Conns, rooms': Seating)
    requires OneHome(rooms) && Known(conns, rooms, used)
    requires Exits(conns, rooms, ref, q, c, k, u) && conns' == conns[c := k] && rooms' == rooms[ref := q]
    ensures OneHome(rooms') && Known(conns', rooms', used)
  {
    ExitActive(conns, rooms, rooms', ref, q, c, k, u);
    hide ActiveIn, MemberIn;
  }

  lemma Exit(conns: Conns, rooms: Seating, used: set<UserId>, ref: Ref, q: Room, c: ConnId, k: Conn, u: UserId)
    requires LinkInv(conns, rooms, used) && Exits(conns, rooms, ref, q, c, k, u)
    ensures LinkInv(conns[c := k], rooms[ref := q], used)
  {
    hide Linked, BackLinked, Applicants, OneHome, Known, Exits;
    ExitLinks(conns, rooms, ref, q, c, k, u, conns[c := k], rooms[ref := q]);
    ExitHomes(conns, rooms, used, ref, q, c, k, u, conns[c := k], rooms[ref := q]);
  }

  /** A reserved seat is given up. */
  lemma Unseat(conns: Conns, rooms: Seating, used: set<UserId>, ref: Ref, q: Room, u: UserId)
    requires LinkInv(conns, rooms, used) && ref in rooms
    requires q.clients == rooms[ref].clients && q.away == rooms[ref].away - {u} && q.pending == rooms[ref].pending
    ensures LinkInv(conns, rooms[ref := q], used)
  {
    var rooms' := rooms[ref := q];
    assert forall x, v, c :: ActiveIn(rooms, x, v, c) <==> ActiveIn(rooms', x, v, c);
    assert forall x, v :: MemberIn(rooms', x, v) ==> MemberIn(rooms, x, v);
    hide ActiveIn, MemberIn;
  }

  // ---- applications ----

  /** Nobody's membership changed, nor anybody's ID. */
  ghost predicate Steady(conns: Conns, conns': Conns, rooms: Seating, rooms': Seating)
  {
    && conns'.Keys == conns.Keys && rooms'.Keys == rooms.Keys
    && (forall c :: c in conns ==> conns'[c].id == conns[c].id && conns'[c].room == conns[c].room)
    && (forall x :: x in rooms ==> rooms'[x].clients == rooms[x].clients && rooms'[x].away == rooms[x].away)
  }

  lemma SteadyLinks(conns: Conns, conns': Conns, rooms: Seating, rooms': Seating)
    requires Linked(conns, rooms) && BackLinked(conns, rooms) && Steady(conns, conns', rooms, rooms')
    ensures Linked(conns', rooms') && BackLinked(conns', rooms')
  {
  }

  lemma SteadyHomes(conns: Conns, conns': Conns, rooms: Seating, rooms': Seating, used: set<UserId>)
    requires OneHome(rooms) && Known(conns, rooms, used) && Steady(conns, conns', rooms, rooms')
    ensures OneHome(rooms') && Known(conns', rooms', used)
  {
    assert forall x, u :: MemberIn(rooms, x, u) <==> MemberIn(rooms', x, u);
    hide MemberIn;
  }

  lemma SteadyKeeps(conns: Conns, conns': Conns, rooms: Seating, rooms': Seating, used: set<UserId>)
    requires LinkInv(conns, rooms, used) && Steady(conns, conns', rooms, rooms') && Applicants(conns', rooms')
    ensures LinkInv(conns', rooms', used)
  {
    hide Linked, BackLinked, Applicants, OneHome, Known, Steady;
    SteadyLinks(conns, conns', rooms, rooms');
    SteadyHomes(conns, conns', rooms, rooms', used);
  }

  lemma Applying(conns: Conns, rooms: Seating, used: set<UserId>, ref: Ref, q: Room, c: ConnId, k: Conn)
    requires LinkInv(conns, rooms, used) && ref in rooms && c in conns
    requires conns[c].pendingRoom.None? && k.id == conns[c].id && k.room == conns[c].room && k.pendingRoom == Some(ref)
    requires q.clients == rooms[ref].clients && q.away == rooms[ref].away && q.pending == rooms[ref].pending[k.id := c]
    ensures LinkInv(conns[c := k], rooms[ref := q], used)
  {
    hide Linked, BackLinked, OneHome, Known;
    SteadyKeeps(conns, conns[c := k], rooms, rooms[ref := q], used);
  }

  /** c's application to ref is gone, and with it c's pointer. */
  lemma Withdraw(conns: Conns, rooms: Seating, used: set<UserId>, ref: Ref, q: Room, c: ConnId, k: Conn)
    requires LinkInv(conns, rooms, used) && ref in rooms && c in conns && conns[c].pendingRoom == Some(ref)
    requires k.id == conns[c].id && k.room == conns[c].room && k.pendingRoom.None?
    requires q.clients == rooms[ref].clients && q.away == rooms[ref].away && Fewer(rooms[ref].pending, q.pending)
    requires k.id in q.pending ==> q.pending[k.id] != c
    ensures LinkInv(conns[c := k], rooms[ref := q], used)
  {
    hide Linked, BackLinked, OneHome, Known;
    SteadyKeeps(conns, conns[c := k], rooms, rooms[ref := q], used);
  }

  /** A connection outside any room takes a fresh ID. */
  lemma Rename(conns: Conns, rooms: Seating, used: set<UserId>, c: ConnId, id: UserId)
    requires LinkInv(conns, rooms, used) && c in conns && conns[c].room.None? && id !in used
    requires conns[c].pendingRoom.Some? ==> conns[c].pendingRoom.value !in rooms
    ensures LinkInv(conns[c := conns[c].(id := id)], rooms, used + {id})
  {
    assert forall x, u :: !ActiveIn(rooms, x, u, c);
    hide ActiveIn, MemberIn;
  }

  // ---- the whole room goes ----

  /** conns' is conns with every pointer at ref removed. */
  ghost predicate Forgotten(conns: Conns, conns': Conns, ref: Ref)
  {
    && conns'.Keys == conns.Keys
    && forall c :: c in conns ==>
         && conns'[c].id == conns[c].id && conns'[c].detached == conns[c].detached
         && (conns'[c].room == if conns[c].room == Some(ref) then None else conns[c].room)
         && (conns'[c].pendingRoom == conns[c].pendingRoom || (conns[c].pendingRoom == Some(ref) && conns'[c].pendingRoom.None?))
  }

  lemma VacateLinks(conns: Conns, rooms: Seating, conns': Conns, ref: Ref, q: Room, rooms': Seating)
    requires Linked(conns, rooms) && BackLinked(conns, rooms) && Applicants(conns, rooms)
    requires ref in rooms && Forgotten(conns, conns', ref) && rooms' == rooms[ref := q]
    requires q.clients == map[] && q.away == map[] && q.pending == map[]
    ensures Linked(conns', rooms') && BackLinked(conns', rooms') && Applicants(conns', rooms')
  {
  }

  lemma VacateHomes(conns: Conns, rooms: Seating, used: set<UserId>, conns': Conns, ref: Ref, q: Room, rooms': Seating)
    requires OneHome(rooms) && Known(conns, rooms, used)
    requires ref in rooms && Forgotten(conns, conns', ref) && rooms' == rooms[ref := q]
    requires q.clients == map[] && q.away == map[] && q.pending == map[]
    ensures OneHome(rooms') && Known(conns', rooms', used)
  {
    assert forall x, u :: MemberIn(rooms', x, u) <==> MemberIn(rooms, x, u) && x != ref;
    hide MemberIn;
  }

  lemma Vacate(conns: Conns, rooms: Seating, used: set<UserId>, conns': Conns, ref: Ref, q: Room)
    requires LinkInv(conns, rooms, used) && ref in rooms && Forgotten(conns, conns', ref)
    requires q.clients == map[] && q.away == map[] && q.pending == map[]
    ensures LinkInv(conns', rooms[ref := q], used)
  {
    hide Linked, BackLinked, Applicants, OneHome, Known, Forgotten;
    VacateLinks(conns, rooms, conns', ref, q, rooms[ref := q]);
    VacateHomes(conns, rooms, used, conns', ref, q, rooms[ref := q]);
  }
}
