/**
 The lock order of the server: every handler takes its locks in strictly
 increasing rank, so no set of concurrent handlers ever waits in a cycle.
 Read locks count as exclusive.
 */
module Locks {
  import opened Base

  datatype Lock = PersistMu | SyncMu(ref: Ref) | ServerMu | RoomMu(ref: Ref) | RngMu | NegotiationMu(c: ConnId) | ClientMu(c: ConnId)

  function Rank(l: Lock): (r: nat)
    ensures r <= 6
  {
    match l
    case PersistMu => 0
    case SyncMu(_) => 1
    case ServerMu => 2
    case RoomMu(_) => 3
    case RngMu => 4
    case NegotiationMu(_) => 5
    case ClientMu(_) => 6
  }

  // ---- handlers as nested critical sections ----

  datatype Code = Done | Hold(l: Lock, body: Code) | Then(first: Code, second: Code)

  /** Every lock ranks above all that are held around it. */
  predicate Ranked(c: Code, floor: int)
  {
    match c
    case Done => true
    case Hold(l, body) => floor < Rank(l) && Ranked(body, Rank(l))
    case Then(first, second) => Ranked(first, floor) && Ranked(second, floor)
  }

  // ---- their operations in order ----

  datatype Op = Take(l: Lock) | Drop(l: Lock)

  function Ops(c: Code): seq<Op>
  {
    match c
    case Done => []
    case Hold(l, body) => [Take(l)] + Ops(body) + [Drop(l)]
    case Then(first, second) => Ops(first) + Ops(second)
  }

  predicate Above(held: set<Lock>, l: Lock) { forall h :: h in held ==> Rank(h) < Rank(l) }

  /** Run from these held locks, each lock taken ranks above all held, only held
      locks are dropped, and nothing is held at the end. */
  predicate Orderly(held: set<Lock>, ops: seq<Op>)
    decreases |ops|
  {
    if ops == [] then held == {}
    else match ops[0]
      case Take(l) => l !in held && Above(held, l) && Orderly(held + {l}, ops[1..])
      case Drop(l) => l in held && Orderly(held - {l}, ops[1..])
  }

  /** A ranked piece of code in front of an orderly rest is orderly. */
  lemma {:induction false} CodeIsOrderly(c: Code, held: set<Lock>, rest: seq<Op>, floor: int)
    requires Ranked(c, floor) && (forall h :: h in held ==> Rank(h) <= floor) && Orderly(held, rest)
    ensures Orderly(held, Ops(c) + rest)
    decreases c
  {
    match c
    case Done => assert Ops(c) + rest == rest;
    case Hold(l, body) =>
      assert held + {l} - {l} == held;
      assert ([Drop(l)] + rest)[1..] == rest;
      CodeIsOrderly(body, held + {l}, [Drop(l)] + rest, Rank(l));
      assert Ops(c) + rest == [Take(l)] + (Ops(body) + ([Drop(l)] + rest));
    case Then(first, second) =>
      CodeIsOrderly(second, held, rest, floor);
      CodeIsOrderly(first, held, Ops(second) + rest, floor);
      assert Ops(c) + rest == Ops(first) + (Ops(second) + rest);
  }

  lemma HandlerIsOrderly(c: Code)
    requires Ranked(c, -1)
    ensures Orderly({}, Ops(c))
  {
    CodeIsOrderly(c, {}, [], -1);
    assert Ops(c) + [] == Ops(c);
  }

  // ---- many handlers at once ----

  datatype Thread = Thread(held: set<Lock>, rest: seq<Op>)

  type System = map<nat, Thread>

  ghost predicate Sound(s: System)
  {
    && (forall i :: i in s ==> Orderly(s[i].held, s[i].rest))
    && (forall i, j :: i in s && j in s && i != j ==> s[i].held !! s[j].held)
  }

  predicate Free(s: System, l: Lock) { forall i :: i in s ==> l !in s[i].held }

  predicate CanRun(s: System, i: nat)
  {
    i in s && s[i].rest != [] && (s[i].rest[0].Take? ==> Free(s, s[i].rest[0].l))
  }

  function Ran(s: System, i: nat): System
    requires CanRun(s, i)
  {
    var op := s[i].rest[0];
    s[i := Thread(if op.Take? then s[i].held + {op.l} else s[i].held - {op.l}, s[i].rest[1..])]
  }

  /** A handler starts at any time. */
  function Started(s: System, i: nat, c: Code): System { s[i := Thread({}, Ops(c))] }

  lemma RunKeepsSound(s: System, i: nat)
    requires Sound(s) && CanRun(s, i)
    ensures Sound(Ran(s, i))
  {
    assert Orderly(s[i].held, s[i].rest);
  }

  lemma StartKeepsSound(s: System, i: nat, c: Code)
    requires Sound(s) && i !in s && Ranked(c, -1)
    ensures Sound(Started(s, i, c))
  {
    HandlerIsOrderly(c);
  }

  /** i waits for a lock that j holds. */
  predicate Waits(s: System, i: nat, j: nat)
  {
    i in s && j in s && s[i].rest != [] && s[i].rest[0].Take? && s[i].rest[0].l in s[j].held
  }

  /** Every thread in T waits for another thread in T. */
  ghost predicate Stuck(s: System, T: set<nat>)
  {
    forall i :: i in T ==> exists j :: j in T && Waits(s, i, j)
  }

  function Wanted(s: System, i: nat): nat
    requires i in s && s[i].rest != [] && s[i].rest[0].Take?
  {
    Rank(s[i].rest[0].l)
  }

  /** A waiting thread wants a higher lock than the one it keeps another waiting for. */
  lemma WaitsUpward(s: System, i: nat, j: nat, k: nat)
    requires Sound(s) && Waits(s, i, j) && Waits(s, j, k)
    ensures Wanted(s, i) < Wanted(s, j)
  {
    assert Orderly(s[j].held, s[j].rest);
  }

  /** Among threads that all wait for one another the wanted ranks would climb
      without end. */
  lemma {:induction false} Climb(s: System, T: set<nat>, i: nat, r: nat)
    requires Sound(s) && T <= s.Keys && i in T && r <= 7
    requires s[i].rest != [] && s[i].rest[0].Take? ==> r <= Wanted(s, i)
    ensures !Stuck(s, T)
    decreases 7 - r
  {
    hide Sound, Orderly;
    if r < 7 {
      forall j, k | j in T && k in T && Waits(s, i, j) && Waits(s, j, k) ensures !Stuck(s, T) {
        WaitsUpward(s, i, j, k);
        Climb(s, T, j, r + 1);
      }
    }
  }

  /** Deadlock freedom: no set of threads waits in a circle. */
  lemma NoWaitCycle(s: System, T: set<nat>)
    requires Sound(s) && T != {} && T <= s.Keys
    ensures !Stuck(s, T)
  {
    var i :| i in T;
    Climb(s, T, i, 0);
  }

  /** So while any handler is unfinished, some handler can go on. */
  lemma Progress(s: System, n: nat)
    requires Sound(s) && n in s && s[n].rest != []
    ensures exists i :: CanRun(s, i)
  {
    var T := set i | i in s && s[i].rest != [];
    assert n in T;
    NoWaitCycle(s, T);
    var i :| i in T && !exists j :: j in T && Waits(s, i, j);
    if s[i].rest[0].Take? && !Free(s, s[i].rest[0].l) {
      var j :| j in s && s[i].rest[0].l in s[j].held;
      assert Orderly(s[j].held, s[j].rest);
      assert Waits(s, i, j);
    }
    assert CanRun(s, i);
  }

  // ---- the handlers ----

  function UnderPersist(body: Code): (r: Code)
    requires Ranked(body, 0)
    ensures Ranked(r, -1)
  {
    Hold(PersistMu, body)
  }

  function UnderSync(ref: Ref, body: Code): (r: Code)
    requires Ranked(body, 1)
    ensures forall floor :: floor < 1 ==> Ranked(r, floor)
  {
    Hold(SyncMu(ref), body)
  }

  function UnderServer(body: Code): (r: Code)
    requires Ranked(body, 2)
    ensures forall floor :: floor < 2 ==> Ranked(r, floor)
  {
    Hold(ServerMu, body)
  }

  function UnderRoom(ref: Ref, body: Code): (r: Code)
    requires Ranked(body, 3)
    ensures forall floor :: floor < 3 ==> Ranked(r, floor)
  {
    Hold(RoomMu(ref), body)
  }

  function Random(): (r: Code)
    ensures forall floor :: floor < 4 ==> Ranked(r, floor)
  {
    Hold(RngMu, Done)
  }

  function Negotiate(c: ConnId, body: Code): (r: Code)
    requires Ranked(body, 5)
    ensures forall floor :: floor < 5 ==> Ranked(r, floor)
  {
    Hold(NegotiationMu(c), body)
  }

  /** One call under a connection's own lock: `isClosed`, `sendEncodedMessage`, `allowSyncResponse`. */
  function Touch(c: ConnId): (r: Code)
    ensures forall floor :: floor < 6 ==> Ranked(r, floor)
  {
    Hold(ClientMu(c), Done)
  }

  /** `sendMessageToClients`, `pickDeputy` or `pendingHostWorkLocked` over these connections. */
  function TouchAll(cs: seq<ConnId>): (r: Code)
    ensures forall floor :: floor < 6 ==> Ranked(r, floor)
  {
    if cs == [] then Done else Then(Touch(cs[0]), TouchAll(cs[1..]))
  }

  function Both(a: Code, b: Code, floor: int): (r: Code)
    requires Ranked(a, floor) && Ranked(b, floor)
    ensures Ranked(r, floor)
  {
    Then(a, b)
  }

  /** The snapshot locks room after room. */
  function Rooms(refs: seq<Ref>): (r: Code)
    ensures Ranked(r, 2)
  {
    if refs == [] then Done else Then(UnderRoom(refs[0], Random()), Rooms(refs[1..]))
  }

  /** Whom a handler deals with: its room, its own connection, connections it
      touches inside the room's lock and after it, and those of a closing room. */
  datatype Reach = Reach(ref: Ref, me: ConnId, inside: seq<ConnId>, after: seq<ConnId>, closing: seq<ConnId>)

  datatype Handler =
    | CreateRoom(x: Reach) | JoinRoom(x: Reach) | ApproveJoin(x: Reach) | RejectJoin(x: Reach) | KickUser(x: Reach)
    | TransferHost(x: Reach) | LeaveRoom(x: Reach) | Disconnect(x: Reach) | Reconnect(x: Reach, live: Reach) | RemoveClient(x: Reach)
    | ExpireSession(x: Reach) | FailoverHost(x: Reach) | DeleteRoom(x: Reach) | SuggestTrack(x: Reach) | ApproveSuggestion(x: Reach)
    | RejectSuggestion(x: Reach) | PlaybackAction(x: Reach) | BufferReady(x: Reach) | RequestSync(x: Reach) | Ping(x: Reach)
    | Capabilities(x: Reach) | CleanupRoom(x: Reach) | Shutdown(cs: seq<ConnId>) | FlushState(refs: seq<Ref>) | LoadState

  /** The room's lock, then the messages, all under the room's syncMu. */
  function Ordered(x: Reach): (r: Code)
    ensures forall floor :: floor < 1 ==> Ranked(r, floor)
  {
    UnderSync(x.ref, Then(UnderRoom(x.ref, TouchAll(x.inside)), TouchAll(x.after)))
  }

  /** The same with the server's lock around the room's. */
  function OrderedByServer(x: Reach): (r: Code)
    ensures forall floor :: floor < 1 ==> Ranked(r, floor)
  {
    UnderSync(x.ref, Then(UnderServer(UnderRoom(x.ref, TouchAll(x.inside))), TouchAll(x.after)))
  }

  /** `leaveRoom` and `expireSession`, which may end in `closeRoom`. */
  function Departure(x: Reach): (r: Code)
    ensures forall floor :: floor < 1 ==> Ranked(r, floor)
  {
    UnderSync(x.ref, Both(Both(UnderRoom(x.ref, TouchAll(x.inside)), UnderServer(Done), 1),
                          Both(TouchAll(x.after), UnderServer(UnderRoom(x.ref, TouchAll(x.closing))), 1), 1))
  }

  function Disconnecting(x: Reach): (r: Code)
    ensures Ranked(r, -1)
  {
    Then(Random(), OrderedByServer(x))
  }

  /** The claim, a live session that may be replaced, the lookup, the
      membership change and the release. */
  function Reconnecting(x: Reach, live: Reach): (r: Code)
    ensures Ranked(r, -1)
  {
    var claim := Both(UnderServer(Done), Both(Disconnecting(live), Touch(live.me), -1), -1);
    var change := UnderSync(x.ref, Then(UnderServer(UnderRoom(x.ref, Then(Negotiate(x.me, Done), TouchAll(x.inside)))), TouchAll(x.after)));
    Both(Both(claim, UnderServer(Done), -1), Both(change, UnderServer(Done), -1), -1)
  }

  /** Every handler takes its locks in strictly increasing rank. */
  function CodeOf(h: Handler): (r: Code)
    ensures Ranked(r, -1)
  {
    match h
    case CreateRoom(x) =>
      Both(Both(Random(), UnderServer(Done), -1), Both(Negotiate(x.me, Done), Both(UnderServer(Done), Touch(x.me), -1), -1), -1)
    case JoinRoom(x) => Then(UnderServer(UnderRoom(x.ref, Negotiate(x.me, Done))), TouchAll(x.after))
    case ApproveJoin(x) =>
      UnderSync(x.ref, Then(UnderRoom(x.ref, Both(TouchAll(x.inside), Both(Negotiate(x.me, Done), Random(), 3), 3)), TouchAll(x.after)))
    case RejectJoin(x) => UnderRoom(x.ref, TouchAll(x.inside))
    case KickUser(x) => OrderedByServer(x)
    case TransferHost(x) => Ordered(x)
    case LeaveRoom(x) => Then(UnderRoom(x.ref, Done), Departure(x))
    case Disconnect(x) => Disconnecting(x)
    case Reconnect(x, live) => Reconnecting(x, live)
    case RemoveClient(x) =>
      Both(Both(UnderServer(Done), Touch(x.me), -1), Both(UnderRoom(x.ref, Done), Disconnecting(x), -1), -1)
    case ExpireSession(x) => Then(UnderServer(Done), Departure(x))
    case FailoverHost(x) => Both(UnderServer(Done), Both(UnderRoom(x.ref, Done), Ordered(x), -1), -1)
    case DeleteRoom(x) => UnderServer(UnderRoom(x.ref, TouchAll(x.inside)))
    case SuggestTrack(x) => Then(UnderRoom(x.ref, Random()), TouchAll(x.after))
    case ApproveSuggestion(x) => Ordered(x)
    case RejectSuggestion(x) => Then(UnderRoom(x.ref, Done), TouchAll(x.after))
    case PlaybackAction(x) => Then(UnderRoom(x.ref, Done), Ordered(x))
    case BufferReady(x) => Ordered(x)
    case RequestSync(x) => UnderSync(x.ref, Then(UnderRoom(x.ref, Touch(x.me)), TouchAll(x.after)))
    case Ping(x) => Then(UnderRoom(x.ref, Touch(x.me)), TouchAll(x.after))
    case Capabilities(x) => Negotiate(x.me, Touch(x.me))
    case CleanupRoom(x) =>
      Both(UnderServer(Done), Both(UnderRoom(x.ref, Done), UnderServer(UnderRoom(x.ref, TouchAll(x.inside))), -1), -1)
    case Shutdown(cs) => Both(UnderServer(Done), TouchAll(cs), -1)
    case FlushState(refs) => UnderPersist(UnderServer(Rooms(refs)))
    case LoadState => Both(UnderServer(Done), UnderPersist(Done), -1)
  }

  // ---- what the locks cover ----

  /** Somewhere in the code all the wanted locks are held together. */
  predicate Joins(c: Code, held: set<Lock>, wanted: set<Lock>)
  {
    wanted <= held ||
    match c
    case Done => false
    case Hold(l, body) => Joins(body, held + {l}, wanted)
    case Then(first, second) => Joins(first, held, wanted) || Joins(second, held, wanted)
  }

  /** Connections are only touched while l is held: messages are queued under it. */
  predicate Within(c: Code, held: set<Lock>, l: Lock)
  {
    match c
    case Done => true
    case Hold(k, body) => (k.ClientMu? ==> l in held) && Within(body, held + {k}, l)
    case Then(first, second) => Within(first, held, l) && Within(second, held, l)
  }

  lemma {:induction false} HeldCovers(c: Code, held: set<Lock>, l: Lock)
    requires l in held
    ensures Within(c, held, l)
  {
    match c
    case Done =>
    case Hold(k, body) => HeldCovers(body, held + {k}, l);
    case Then(first, second) => HeldCovers(first, held, l); HeldCovers(second, held, l);
  }

  /** Handlers that change who is in the room, who hosts it or what it plays, and
      tell the room about it. */
  predicate Announces(h: Handler)
  {
    || h.ApproveJoin? || h.KickUser? || h.TransferHost? || h.LeaveRoom? || h.Disconnect? || h.ExpireSession?
    || h.FailoverHost? || h.ApproveSuggestion? || h.PlaybackAction? || h.BufferReady? || h.RequestSync?
  }

  /** They queue every message under the syncMu of their room, so no two of them mix
      their messages to one room. */
  lemma MessagesUnderSync(h: Handler)
    requires Announces(h)
    ensures Within(CodeOf(h), {}, SyncMu(h.x.ref))
  {
    var x, l := h.x, SyncMu(h.x.ref);
    forall c: Code ensures Within(Hold(l, c), {}, l) { HeldCovers(c, {} + {l}, l); }
    assert Within(Hold(RoomMu(x.ref), Done), {}, l) && Within(Hold(ServerMu, Done), {}, l) && Within(Random(), {}, l);
    assert Within(Ordered(x), {}, l) && Within(OrderedByServer(x), {}, l) && Within(Departure(x), {}, l);
    if h.FailoverHost? { assert Within(Both(UnderRoom(x.ref, Done), Ordered(x), -1), {}, l); }
  }

  /** The locks of the critical section that the handler's step in the server model
      stands for: a change of members and tokens holds the server's lock and the
      room's together, under syncMu where listeners are told; an application and the
      end of an empty room hold both; everything else about a room holds the room's. */
  function SectionLocks(h: Handler): set<Lock>
  {
    match h
    case KickUser(x) => {SyncMu(x.ref), ServerMu, RoomMu(x.ref)}
    case Disconnect(x) => {SyncMu(x.ref), ServerMu, RoomMu(x.ref)}
    case RemoveClient(x) => {SyncMu(x.ref), ServerMu, RoomMu(x.ref)}
    case Reconnect(x, _) => {SyncMu(x.ref), ServerMu, RoomMu(x.ref)}
    case LeaveRoom(x) => {SyncMu(x.ref), ServerMu, RoomMu(x.ref)}
    case ExpireSession(x) => {SyncMu(x.ref), ServerMu, RoomMu(x.ref)}
    case ApproveJoin(x) => {SyncMu(x.ref), RoomMu(x.ref)}
    case TransferHost(x) => {SyncMu(x.ref), RoomMu(x.ref)}
    case FailoverHost(x) => {SyncMu(x.ref), RoomMu(x.ref)}
    case ApproveSuggestion(x) => {SyncMu(x.ref), RoomMu(x.ref)}
    case PlaybackAction(x) => {SyncMu(x.ref), RoomMu(x.ref)}
    case BufferReady(x) => {SyncMu(x.ref), RoomMu(x.ref)}
    case RequestSync(x) => {SyncMu(x.ref), RoomMu(x.ref)}
    case JoinRoom(x) => {ServerMu, RoomMu(x.ref)}
    case DeleteRoom(x) => {ServerMu, RoomMu(x.ref)}
    case CleanupRoom(x) => {ServerMu, RoomMu(x.ref)}
    case RejectJoin(x) => {RoomMu(x.ref)}
    case SuggestTrack(x) => {RoomMu(x.ref)}
    case RejectSuggestion(x) => {RoomMu(x.ref)}
    case Ping(x) => {RoomMu(x.ref)}
    case Capabilities(x) => {NegotiationMu(x.me)}
    case CreateRoom(_) => {ServerMu}
    case Shutdown(_) => {ServerMu}
    case FlushState(_) => {PersistMu, ServerMu}
    case LoadState => {ServerMu}
  }

  /** Under these locks the rest of the code still meets the wanted ones. */
  lemma Nested(c: Code, held: set<Lock>, wanted: set<Lock>)
    ensures c.Hold? && Joins(c.body, held + {c.l}, wanted) ==> Joins(c, held, wanted)
    ensures c.Then? && (Joins(c.first, held, wanted) || Joins(c.second, held, wanted)) ==> Joins(c, held, wanted)
    ensures wanted <= held ==> Joins(c, held, wanted)
  {
  }

  /** Two or three locks taken inside each other are held together. */
  lemma RoomInSync(x: Reach, body: Code, rest: Code)
    ensures Joins(Hold(SyncMu(x.ref), Then(Hold(RoomMu(x.ref), body), rest)), {}, {SyncMu(x.ref), RoomMu(x.ref)})
  {
    var wanted := {SyncMu(x.ref), RoomMu(x.ref)};
    var inner := Hold(RoomMu(x.ref), body);
    Nested(body, {} + {SyncMu(x.ref)} + {RoomMu(x.ref)}, wanted);
    Nested(inner, {} + {SyncMu(x.ref)}, wanted);
    Nested(Then(inner, rest), {} + {SyncMu(x.ref)}, wanted);
    Nested(Hold(SyncMu(x.ref), Then(inner, rest)), {}, wanted);
  }

  lemma RoomInServer(ref: Ref, body: Code, held: set<Lock>)
    ensures Joins(Hold(ServerMu, Hold(RoomMu(ref), body)), held, held + {ServerMu, RoomMu(ref)})
  {
    var wanted := held + {ServerMu, RoomMu(ref)};
    Nested(body, held + {ServerMu} + {RoomMu(ref)}, wanted);
    Nested(Hold(RoomMu(ref), body), held + {ServerMu}, wanted);
    Nested(Hold(ServerMu, Hold(RoomMu(ref), body)), held, wanted);
  }

  lemma AllThree(x: Reach)
    ensures Joins(OrderedByServer(x), {}, {SyncMu(x.ref), ServerMu, RoomMu(x.ref)})
    ensures Joins(Departure(x), {}, {SyncMu(x.ref), ServerMu, RoomMu(x.ref)})
  {
    var l := SyncMu(x.ref);
    var wanted := {l, ServerMu, RoomMu(x.ref)};
    assert {l} + {ServerMu, RoomMu(x.ref)} == wanted && {} + {l} == {l};
    RoomInServer(x.ref, TouchAll(x.inside), {l});
    RoomInServer(x.ref, TouchAll(x.closing), {l});
    var o, d := OrderedByServer(x), Departure(x);
    Nested(o.body, {l}, wanted);
    Nested(o, {}, wanted);
    Nested(d.body.second, {l}, wanted);
    Nested(d.body, {l}, wanted);
    Nested(d, {}, wanted);
  }

  /** Every handler holds those locks together. */
  lemma SectionsHold(h: Handler)
    ensures Joins(CodeOf(h), {}, SectionLocks(h))
  {
    hide Joins, Ordered, OrderedByServer, Departure;
    var c, wanted := CodeOf(h), SectionLocks(h);
    Nested(c, {}, wanted);
    match h
    case KickUser(x) => AllThree(x);
    case Disconnect(x) => AllThree(x);
    case RemoveClient(x) =>
      AllThree(x);
      Nested(c.second.second, {}, wanted);
      Nested(c.second, {}, wanted);
    case Reconnect(x, live) => ReturnJoins(x, live);
    case LeaveRoom(x) => AllThree(x);
    case ExpireSession(x) => AllThree(x);
    case ApproveJoin(x) => RoomInSync(x, c.body.first.body, c.body.second);
    case TransferHost(x) => OrderedJoins(x);
    case FailoverHost(x) => OrderedJoins(x); Nested(c.second, {}, wanted);
    case ApproveSuggestion(x) => OrderedJoins(x);
    case PlaybackAction(x) => OrderedJoins(x);
    case BufferReady(x) => OrderedJoins(x);
    case RequestSync(x) => RoomInSync(x, c.body.first.body, c.body.second);
    case JoinRoom(x) => RoomInServer(x.ref, Negotiate(x.me, Done), {}); assert {} + wanted == wanted;
    case DeleteRoom(x) => RoomInServer(x.ref, TouchAll(x.inside), {}); assert {} + wanted == wanted;
    case CleanupRoom(x) =>
      RoomInServer(x.ref, TouchAll(x.inside), {});
      assert {} + wanted == wanted;
      Nested(c.second, {}, wanted);
    case FlushState(refs) => FlushJoins(refs);
    case RejectJoin(x) => Nested(c.body, {} + {c.l}, wanted);
    case Capabilities(x) => Nested(c.body, {} + {c.l}, wanted);
    case SuggestTrack(x) => OneLock(c.first, {}, wanted);
    case RejectSuggestion(x) => OneLock(c.first, {}, wanted);
    case Ping(x) => OneLock(c.first, {}, wanted);
    case CreateRoom(_) => OneLock(c.first.second, {}, wanted); Nested(c.first, {}, wanted);
    case Shutdown(_) => OneLock(c.first, {}, wanted);
    case LoadState => OneLock(c.first, {}, wanted);
  }

  lemma OneLock(c: Code, held: set<Lock>, wanted: set<Lock>)
    requires c.Hold? && wanted == {c.l}
    ensures Joins(c, held, wanted)
  {
    Nested(c.body, held + {c.l}, wanted);
    Nested(c, held, wanted);
  }

  lemma OrderedJoins(x: Reach)
    ensures Joins(Ordered(x), {}, {SyncMu(x.ref), RoomMu(x.ref)})
  {
    RoomInSync(x, TouchAll(x.inside), TouchAll(x.after));
  }

  lemma ReturnJoins(x: Reach, live: Reach)
    ensures Joins(Reconnecting(x, live), {}, {SyncMu(x.ref), ServerMu, RoomMu(x.ref)})
  {
    hide Joins;
    var l := SyncMu(x.ref);
    var wanted := {l, ServerMu, RoomMu(x.ref)};
    var c := Reconnecting(x, live);
    var change := c.second.first;
    assert {l} + {ServerMu, RoomMu(x.ref)} == wanted && {} + {l} == {l};
    RoomInServer(x.ref, change.body.first.body.body, {l});
    Nested(change.body, {l}, wanted);
    Nested(change, {}, wanted);
    Nested(c.second, {}, wanted);
    Nested(c, {}, wanted);
  }

  lemma FlushJoins(refs: seq<Ref>)
    ensures Joins(CodeOf(FlushState(refs)), {}, {PersistMu, ServerMu})
  {
    hide Joins;
    var c := CodeOf(FlushState(refs));
    Nested(c.body.body, {} + {PersistMu} + {ServerMu}, {PersistMu, ServerMu});
    Nested(c.body, {} + {PersistMu}, {PersistMu, ServerMu});
    Nested(c, {}, {PersistMu, ServerMu});
  }

  // ---- every reachable system ----

  datatype Turn = Start(i: nat, h: Handler) | Go(i: nat)

  predicate CanTurn(s: System, t: Turn)
  {
    match t
    case Start(i, _) => i !in s
    case Go(i) => CanRun(s, i)
  }

  function Turned(s: System, t: Turn): System
    requires CanTurn(s, t)
  {
    match t
    case Start(i, h) => Started(s, i, CodeOf(h))
    case Go(i) => Ran(s, i)
  }

  predicate Schedule(s: System, ts: seq<Turn>)
    decreases |ts|
  {
    ts != [] ==> CanTurn(s, ts[0]) && Schedule(Turned(s, ts[0]), ts[1..])
  }

  function Scheduled(s: System, ts: seq<Turn>): System
    requires Schedule(s, ts)
    decreases |ts|
  {
    if ts == [] then s else Scheduled(Turned(s, ts[0]), ts[1..])
  }

  lemma {:induction false} SchedulesStaySound(s: System, ts: seq<Turn>)
    requires Sound(s) && Schedule(s, ts)
    ensures Sound(Scheduled(s, ts))
    decreases |ts|
  {
    hide Sound, CodeOf, Orderly;
    if ts != [] {
      match ts[0]
      case Start(i, h) => StartKeepsSound(s, i, CodeOf(h)); SchedulesStaySound(Turned(s, ts[0]), ts[1..]);
      case Go(i) => RunKeepsSound(s, i); SchedulesStaySound(Turned(s, ts[0]), ts[1..]);
    }
  }

  /** Whatever handlers start and however they interleave, no group of them
      waits in a circle, and unless all are finished one of them can go on. */
  lemma NeverDeadlocks(ts: seq<Turn>, T: set<nat>, n: nat)
    requires Schedule(map[], ts) && T != {} && T <= Scheduled(map[], ts).Keys
    ensures !Stuck(Scheduled(map[], ts), T)
    ensures n in Scheduled(map[], ts) && Scheduled(map[], ts)[n].rest != [] ==>
              exists i :: CanRun(Scheduled(map[], ts), i)
  {
    var s := Scheduled(map[], ts);
    SchedulesStaySound(map[], ts);
    NoWaitCycle(s, T);
    if n in s && s[n].rest != [] { Progress(s, n); }
  }

  /** However handlers interleave, no lock is ever held by two of them: what one does
      under a lock the others see whole or not at all. */
  lemma OneAtATime(ts: seq<Turn>, i: nat, j: nat, l: Lock)
    requires Schedule(map[], ts) && i in Scheduled(map[], ts) && j in Scheduled(map[], ts)
    ensures l in Scheduled(map[], ts)[i].held && l in Scheduled(map[], ts)[j].held ==> i == j
  {
    SchedulesStaySound(map[], ts);
  }
}
