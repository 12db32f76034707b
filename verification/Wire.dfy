/**
 From the room to the socket: what the room queues goes through each
 connection's bounded outbound queue, among other messages. The bytes a writer
 has taken are the encodings of a prefix of what was queued, in order and
 without omission, so every received part of the stream is a prefix of the log.
 */
module Wire {
  import opened Base
  import opened Text
  import opened Tracks
  import opened Playback
  import opened Replica
  import opened Delivery
  import opened Canaries
  import opened Streams
  import Outbox

  /** One accepted message: of this room, or anything else sent to the client. */
  datatype Parcel = FromRoom(msg: Msg) | Foreign(bytes: Str)

  /** How messages are encoded for a connection. */
  type Encoder = Msg -> Str

  function Bytes(enc: Encoder, p: Parcel): Str { match p case FromRoom(m) => enc(m) case Foreign(b) => b }

  function Encoded(enc: Encoder, ps: seq<Parcel>): seq<Str> { seq(|ps|, i requires 0 <= i < |ps| => Bytes(enc, ps[i])) }

  /** The room's own messages. */
  function Ours(ps: seq<Parcel>): seq<Msg>
  {
    if ps == [] then [] else Ours(ps[..|ps| - 1]) + match ps[|ps| - 1] case FromRoom(m) => [m] case Foreign(_) => []
  }

  function Messages(line: seq<Item>): seq<Msg> { seq(|line|, i requires 0 <= i < |line| => line[i].msg) }

  datatype Net = Net(stage: Stage, boxes: map<Conn, Outbox.Box>, parcels: map<Conn, seq<Parcel>>)

  datatype Move = Room(a: Step) | Send(c: Conn, bytes: Str) | Dequeue(c: Conn) | Deduct(c: Conn)

  function Sent(n: Net, c: Conn): seq<Parcel> { if c in n.parcels then n.parcels[c] else [] }

  /** The message a step offers to a connection's outbound queue. */
  function Offer(s: Stage, a: Step): Option<(Conn, Msg)>
    requires CanStep(s, a)
  {
    match a
    case Queue(c, _) => Some((c, s.job.value[c][0]))
    case QueueCanary(c, _) => Some((c, s.probes[c].msg))
    case _ => None
  }

  /** Whether a message fits is for the outbound queue to say. */
  predicate CanMove(n: Net, enc: Encoder, mv: Move)
  {
    match mv
    case Room(a) =>
      && CanStep(n.stage, a)
      && (a.Queue? || a.QueueCanary? ==> a.c in n.boxes && a.fits == Outbox.Fits(n.boxes[a.c], enc(Offer(n.stage, a).value.1)))
      && (a.Close? ==> a.c in n.boxes)
    case Send(c, _) => c in n.boxes
    case Dequeue(c) => c in n.boxes && Outbox.CanDo(n.boxes[c], Outbox.Dequeue)
    case Deduct(c) => c in n.boxes
  }

  /** A message is offered: accepted and remembered, or the connection closes. */
  function Offered(n: Net, enc: Encoder, c: Conn, p: Parcel): Net
    requires c in n.boxes
  {
    var b := n.boxes[c];
    n.(boxes := n.boxes[c := Outbox.Offered(b, Bytes(enc, p))],
       parcels := if !b.closed && Outbox.Fits(b, Bytes(enc, p)) then n.parcels[c := Sent(n, c) + [p]] else n.parcels)
  }

  function Moved(n: Net, enc: Encoder, mv: Move): Net
    requires CanMove(n, enc, mv)
  {
    match mv
    case Room(a) =>
      var t := Stepped(n.stage, a);
      if a.Queue? || a.QueueCanary? then Offered(n, enc, a.c, FromRoom(Offer(n.stage, a).value.1)).(stage := t)
      else if a.Close? then n.(stage := t, boxes := n.boxes[a.c := n.boxes[a.c].(closed := true)])
      else n.(stage := t)
    case Send(c, bytes) =>
      var t := Offered(n, enc, c, Foreign(bytes));
      t.(stage := if t.boxes[c].closed then Stepped(n.stage, Close(c)) else n.stage)
    case Dequeue(c) => n.(boxes := n.boxes[c := Outbox.Dequeued(n.boxes[c])])
    case Deduct(c) => n.(boxes := n.boxes[c := Outbox.Deducted(n.boxes[c])])
  }

  /** The room's messages among what c's writer has taken. */
  function Received(n: Net, c: Conn): seq<Msg>
    requires c in n.boxes
  {
    if |n.boxes[c].taken| <= |Sent(n, c)| then Ours(Sent(n, c)[..|n.boxes[c].taken|]) else []
  }

  // ---- the outbound queue holds what was accepted ----

  ghost predicate Matches(n: Net, enc: Encoder, c: Conn)
    requires c in n.boxes
  {
    var b := n.boxes[c];
    && b.taken + b.queue == Encoded(enc, Sent(n, c)) && Outbox.Sound(b)
    && (b.closed <==> c in n.stage.closed)
    && Ours(Sent(n, c)) == Messages(Line(n.stage, c))
  }

  ghost predicate Wired(n: Net, enc: Encoder)
  {
    Good(n.stage) && Ordered(n.stage) && forall c :: c in n.boxes ==> Matches(n, enc, c)
  }

  lemma OursMore(ps: seq<Parcel>, p: Parcel)
    ensures Ours(ps + [p]) == Ours(ps) + match p case FromRoom(m) => [m] case Foreign(_) => []
  {
    assert (ps + [p])[..|ps|] == ps;
  }

  lemma EncodedMore(enc: Encoder, ps: seq<Parcel>, p: Parcel)
    ensures Encoded(enc, ps + [p]) == Encoded(enc, ps) + [Bytes(enc, p)]
  {
  }

  lemma MessagesMore(line: seq<Item>, x: Item)
    ensures Messages(line + [x]) == Messages(line) + [x.msg]
  {
  }

  /** Accepting a message keeps queue and memory together. */
  lemma OfferMatches(n: Net, enc: Encoder, c: Conn, p: Parcel)
    requires c in n.boxes && Matches(n, enc, c)
    ensures var t := Offered(n, enc, c, p); var b := t.boxes[c]; var was := n.boxes[c];
            && b.taken + b.queue == Encoded(enc, Sent(t, c)) && Outbox.Sound(b)
            && (b.closed <==> was.closed || !Outbox.Fits(was, Bytes(enc, p)))
            && Sent(t, c) == if !was.closed && Outbox.Fits(was, Bytes(enc, p)) then Sent(n, c) + [p] else Sent(n, c)
  {
    var b, m := n.boxes[c], Bytes(enc, p);
    Outbox.DoKeepsSound(b, Outbox.Send(m));
    if !b.closed && Outbox.Fits(b, m) {
      EncodedMore(enc, Sent(n, c), p);
      assert b.taken + (b.queue + [m]) == (b.taken + b.queue) + [m];
    }
  }

  /** What a step that offers c a message does to c's line. */
  lemma OfferLine(s: Stage, a: Step, c: Conn)
    requires Good(s) && CanStep(s, a) && (a.Queue? || a.QueueCanary?) && a.c == c
    ensures var t := Stepped(s, a); var m := Offer(s, a).value.1;
            && (c in t.closed <==> c in s.closed || !a.fits)
            && Messages(Line(t, c)) == (if c !in s.closed && a.fits then Messages(Line(s, c)) + [m] else Messages(Line(s, c)))
            && (forall d :: d != c ==> Line(t, d) == Line(s, d) && (d in t.closed <==> d in s.closed))
  {
    hide PlayInv, Faithful, Greeted, Current;
    if a.Queue? { assert InStep(s, c); }
    var m := Offer(s, a).value.1;
    if c !in s.closed && a.fits {
      MessagesMore(Line(s, c), if a.Queue? then Item(m, s.play, s.clock, false) else Canary(s.probes[c]));
    }
  }

  /** Other steps leave lines and connections alone. */
  lemma QuietLine(s: Stage, a: Step)
    requires CanStep(s, a) && !a.Queue? && !a.QueueCanary?
    ensures var t := Stepped(s, a);
            t.lines == s.lines && t.closed == if a.Close? then s.closed + {a.c} else s.closed
  {
    hide Apply, SnapshotOf, Nudges;
  }

  /** A connection the move does not touch. */
  lemma MatchesSame(n: Net, t: Net, enc: Encoder, d: Conn)
    requires d in n.boxes && Matches(n, enc, d) && d in t.boxes && t.boxes[d] == n.boxes[d] && Sent(t, d) == Sent(n, d)
    requires Line(t.stage, d) == Line(n.stage, d) && (d in t.stage.closed <==> d in n.stage.closed)
    ensures Matches(t, enc, d)
  {
    hide Ours, Messages, Outbox.Sound;
  }

  /** The connection that was offered p. */
  lemma MatchesGrown(n: Net, t: Net, enc: Encoder, c: Conn, p: Parcel)
    requires c in n.boxes && Matches(n, enc, c) && c in t.boxes
    requires var o := Offered(n, enc, c, p); t.boxes[c] == o.boxes[c] && t.parcels == o.parcels
    requires c in t.stage.closed <==> c in n.stage.closed || !Outbox.Fits(n.boxes[c], Bytes(enc, p))
    requires Messages(Line(t.stage, c)) ==
             if p.FromRoom? && !n.boxes[c].closed && Outbox.Fits(n.boxes[c], Bytes(enc, p))
             then Messages(Line(n.stage, c)) + [p.msg] else Messages(Line(n.stage, c))
    ensures Matches(t, enc, c)
  {
    hide Ours, Messages, Outbox.Fits, Outbox.Sound, Outbox.Offered;
    OfferMatches(n, enc, c, p);
    OursMore(Sent(n, c), p);
  }

  lemma OfferWired(n: Net, enc: Encoder, a: Step)
    requires Wired(n, enc) && CanMove(n, enc, Room(a)) && (a.Queue? || a.QueueCanary?)
    ensures forall d :: d in n.boxes ==> Matches(Moved(n, enc, Room(a)), enc, d)
  {
    hide Good, Ordered, CanStep, Stepped, Ours, Messages, Outbox.Fits, Outbox.Offered, Encoded, Outbox.Sound;
    var t := Moved(n, enc, Room(a));
    OfferLine(n.stage, a, a.c);
    forall d | d in n.boxes ensures Matches(t, enc, d) {
      assert Matches(n, enc, d);
      if d == a.c {
        MatchesGrown(n, t, enc, d, FromRoom(Offer(n.stage, a).value.1));
      } else {
        MatchesSame(n, t, enc, d);
      }
    }
  }

  lemma QuietWired(n: Net, enc: Encoder, a: Step)
    requires Wired(n, enc) && CanMove(n, enc, Room(a)) && !a.Queue? && !a.QueueCanary?
    ensures forall d :: d in n.boxes ==> Matches(Moved(n, enc, Room(a)), enc, d)
  {
    hide Good, Ordered, CanStep, Stepped, Ours, Messages, Encoded;
    var t := Moved(n, enc, Room(a));
    QuietLine(n.stage, a);
    forall d | d in n.boxes ensures Matches(t, enc, d) { assert Matches(n, enc, d); }
  }

  lemma RoomWired(n: Net, enc: Encoder, a: Step)
    requires Wired(n, enc) && CanMove(n, enc, Room(a))
    ensures Wired(Moved(n, enc, Room(a)), enc)
  {
    hide Good, Ordered, CanStep, Stepped, Matches, Outbox.Fits, Outbox.Offered;
    StepKeeps(n.stage, a);
    StepOrdered(n.stage, a);
    if a.Queue? || a.QueueCanary? { OfferWired(n, enc, a); } else { QuietWired(n, enc, a); }
  }

  lemma SendWired(n: Net, enc: Encoder, c: Conn, bytes: Str)
    requires Wired(n, enc) && c in n.boxes
    ensures Wired(Moved(n, enc, Send(c, bytes)), enc)
  {
    hide Good, Ordered, Matches, Messages, Outbox.Fits;
    var t := Moved(n, enc, Send(c, bytes));
    StepKeeps(n.stage, Close(c));
    StepOrdered(n.stage, Close(c));
    forall d | d in t.boxes ensures Matches(t, enc, d) {
      assert Matches(n, enc, d);
      assert n.boxes[d].closed <==> d in n.stage.closed by { MatchesClosed(n, enc, d); }
      if d == c { MatchesGrown(n, t, enc, d, Foreign(bytes)); } else { MatchesSame(n, t, enc, d); }
    }
  }

  lemma MatchesClosed(n: Net, enc: Encoder, c: Conn)
    requires c in n.boxes && Matches(n, enc, c)
    ensures n.boxes[c].closed <==> c in n.stage.closed
  {
    hide Ours, Messages, Outbox.Sound;
  }

  /** The writer moves messages from waiting to taken. */
  lemma WriteMatches(n: Net, t: Net, enc: Encoder, c: Conn)
    requires c in n.boxes && Matches(n, enc, c) && c in t.boxes && t.stage == n.stage && t.parcels == n.parcels
    requires || (n.boxes[c].queue != [] && n.boxes[c].due == 0 && t.boxes[c] == Outbox.Dequeued(n.boxes[c]))
             || t.boxes[c] == Outbox.Deducted(n.boxes[c])
    ensures Matches(t, enc, c)
  {
    hide Ours, Messages, Encoded;
    var b := n.boxes[c];
    if b.queue != [] && b.due == 0 && t.boxes[c] == Outbox.Dequeued(b) {
      Outbox.DoKeepsSound(b, Outbox.Dequeue);
      assert b.queue == [b.queue[0]] + b.queue[1..];
      assert (b.taken + [b.queue[0]]) + b.queue[1..] == b.taken + b.queue;
    } else {
      Outbox.DoKeepsSound(b, Outbox.Deduct);
    }
  }

  lemma WriteWired(n: Net, enc: Encoder, mv: Move)
    requires Wired(n, enc) && CanMove(n, enc, mv) && (mv.Dequeue? || mv.Deduct?)
    ensures Wired(Moved(n, enc, mv), enc)
  {
    hide Good, Ordered, Matches, Outbox.Dequeued, Outbox.Deducted;
    var t := Moved(n, enc, mv);
    forall d | d in t.boxes ensures Matches(t, enc, d) {
      assert Matches(n, enc, d);
      if d == mv.c { WriteMatches(n, t, enc, d); } else { MatchesSame(n, t, enc, d); }
    }
  }

  lemma MoveWired(n: Net, enc: Encoder, mv: Move)
    requires Wired(n, enc) && CanMove(n, enc, mv)
    ensures Wired(Moved(n, enc, mv), enc)
  {
    hide Wired, Moved;
    match mv
    case Room(a) => RoomWired(n, enc, a);
    case Send(c, bytes) => SendWired(n, enc, c, bytes);
    case Dequeue(_) => WriteWired(n, enc, mv);
    case Deduct(_) => WriteWired(n, enc, mv);
  }

  // ---- whole runs ----

  predicate CanMoveAll(n: Net, enc: Encoder, mvs: seq<Move>)
    decreases |mvs|
  {
    mvs != [] ==> CanMove(n, enc, mvs[0]) && CanMoveAll(Moved(n, enc, mvs[0]), enc, mvs[1..])
  }

  function MovedAll(n: Net, enc: Encoder, mvs: seq<Move>): Net
    requires CanMoveAll(n, enc, mvs)
    decreases |mvs|
  {
    if mvs == [] then n else MovedAll(Moved(n, enc, mvs[0]), enc, mvs[1..])
  }

  /** A room before anybody is in it, and fresh connections. */
  predicate Fresh(n: Net)
  {
    && Opening(n.stage) && n.parcels == map[] && n.stage.closed == {}
    && forall c :: c in n.boxes ==> Outbox.Empty(n.boxes[c])
  }

  lemma FreshIsWired(n: Net, enc: Encoder)
    requires Fresh(n)
    ensures Wired(n, enc)
  {
    hide PlayInv;
    OpeningOrdered(n.stage);
    hide Good, Ordered;
  }

  lemma {:induction false} RunWired(n: Net, enc: Encoder, mvs: seq<Move>)
    requires Wired(n, enc) && CanMoveAll(n, enc, mvs)
    ensures Wired(MovedAll(n, enc, mvs), enc)
    decreases |mvs|
  {
    hide Wired, CanMove, Moved;
    if mvs != [] {
      MoveWired(n, enc, mvs[0]);
      RunWired(Moved(n, enc, mvs[0]), enc, mvs[1..]);
    }
  }

  lemma {:induction false} OursPrefix(ps: seq<Parcel>, k: nat)
    requires k <= |ps|
    ensures Ours(ps[..k]) <= Ours(ps)
    decreases |ps| - k
  {
    if k == |ps| {
      assert ps[..k] == ps;
    } else {
      OursPrefix(ps, k + 1);
      assert ps[..k + 1][..k] == ps[..k] && ps[..k + 1] == ps[..k] + [ps[k]];
      OursMore(ps[..k], ps[k]);
    }
  }

  /** Over every run of room, other senders and writer: the bytes taken so far are
      the encodings of the first messages accepted, in order and without omission,
      and the room's own among them are a prefix of what the room queued. */
  lemma ReceivedIsPrefix(n: Net, enc: Encoder, mvs: seq<Move>, c: Conn)
    requires Fresh(n) && CanMoveAll(n, enc, mvs) && c in MovedAll(n, enc, mvs).boxes
    ensures var e := MovedAll(n, enc, mvs); var k := |e.boxes[c].taken|;
            && k <= |Sent(e, c)| && e.boxes[c].taken == Encoded(enc, Sent(e, c)[..k])
            && Received(e, c) == Ours(Sent(e, c)[..k]) <= Messages(Line(e.stage, c))
            && Outbox.Total(e.boxes[c].queue) <= Outbox.MAX_QUEUED && |e.boxes[c].queue| <= Outbox.CAPACITY
  {
    hide Good, Ordered, MovedAll, CanMoveAll, Ours, Messages;
    FreshIsWired(n, enc);
    RunWired(n, enc, mvs);
    var e := MovedAll(n, enc, mvs);
    assert Matches(e, enc, c);
    var b := e.boxes[c];
    var k := |b.taken|;
    assert |b.taken + b.queue| == |Sent(e, c)|;
    assert b.taken == (b.taken + b.queue)[..k] == Encoded(enc, Sent(e, c)[..k]);
    OursPrefix(Sent(e, c), k);
  }

  // ---- what the listener makes of it ----

  /** Every ping snapshot queued to c goes out before anything newer. */
  predicate Prompts(n: Net, enc: Encoder, mvs: seq<Move>, c: Conn)
    requires CanMoveAll(n, enc, mvs)
    decreases |mvs|
  {
    mvs != [] ==>
      && (mvs[0].Room? && Queues(n.stage, mvs[0].a, c) ==> InTime(n.stage, c))
      && Prompts(Moved(n, enc, mvs[0]), enc, mvs[1..], c)
  }

  lemma MoveFlows(n: Net, enc: Encoder, mv: Move, c: Conn)
    requires Good(n.stage) && Ordered(n.stage) && Flows(n.stage, c) && CanMove(n, enc, mv)
    requires mv.Room? && Queues(n.stage, mv.a, c) ==> InTime(n.stage, c)
    ensures Flows(Moved(n, enc, mv).stage, c)
  {
    hide Good, Ordered, Flows, Stepped, InTime, Queues, Outbox.Fits, Outbox.Offered;
    match mv
    case Room(a) => StepFlows(n.stage, a, c);
    case Send(d, _) => NeverQueues(n.stage, d, c); StepFlows(n.stage, Close(d), c);
    case Dequeue(_) =>
    case Deduct(_) =>
  }

  lemma NeverQueues(s: Stage, d: Conn, c: Conn)
    ensures !Queues(s, Close(d), c)
  {
  }

  lemma {:induction false} RunFlowsOn(n: Net, enc: Encoder, mvs: seq<Move>, c: Conn)
    requires Wired(n, enc) && Flows(n.stage, c) && CanMoveAll(n, enc, mvs) && Prompts(n, enc, mvs, c)
    ensures Flows(MovedAll(n, enc, mvs).stage, c)
    decreases |mvs|
  {
    hide Good, Ordered, Matches, Flows, CanMove, Moved, InTime, Queues;
    if mvs != [] {
      MoveWired(n, enc, mvs[0]);
      MoveFlows(n, enc, mvs[0], c);
      RunFlowsOn(Moved(n, enc, mvs[0]), enc, mvs[1..], c);
    }
  }

  /** So a guest whose ping snapshots were in time rebuilds the room from whatever
      its writer has taken since its stay began, whatever came before. */
  lemma ReceivedRebuilds(n: Net, enc: Encoder, mvs: seq<Move>, c: Conn)
    requires Fresh(n) && CanMoveAll(n, enc, mvs) && Prompts(n, enc, mvs, c) && c in MovedAll(n, enc, mvs).boxes
    requires var s := MovedAll(n, enc, mvs).stage; c in s.logs && c in s.guests && c in s.capable
    ensures var e := MovedAll(n, enc, mvs); var got := Received(e, c);
            && c in e.stage.starts
            && (|got| > e.stage.starts[c] ==>
                  var k := |got| - e.stage.starts[c];
                  && k <= |Stay(e.stage, c)|
                  && Agrees(FoldAll(got), Stay(e.stage, c)[k - 1].play, Stay(e.stage, c)[k - 1].at))
  {
    hide MovedAll, CanMoveAll, Received, Encoded, Agrees, Good, Ordered, Matches, Messages, Fresh, Flows, Prompts;
    FreshIsWired(n, enc);
    assert Flows(n.stage, c) by { FreshFlows(n, c); }
    RunWired(n, enc, mvs);
    RunFlowsOn(n, enc, mvs, c);
    ReceivedIsPrefix(n, enc, mvs, c);
    PrefixRebuilds(MovedAll(n, enc, mvs).stage, c, Received(MovedAll(n, enc, mvs), c));
  }

  lemma FreshFlows(n: Net, c: Conn)
    requires Fresh(n)
    ensures Flows(n.stage, c)
  {
    hide Opening, Flows;
    OpeningFlows(n.stage, c);
  }

  /** Any prefix of the line that reaches into the stay rebuilds the room. */
  lemma PrefixRebuilds(s: Stage, c: Conn, got: seq<Msg>)
    requires Good(s) && Ordered(s) && Flows(s, c) && c in s.logs && c in s.guests && c in s.capable
             && got <= Messages(Line(s, c))
    ensures c in s.starts && (|got| > s.starts[c] ==>
              var k := |got| - s.starts[c];
              k <= |Stay(s, c)| && Agrees(FoldAll(got), Stay(s, c)[k - 1].play, Stay(s, c)[k - 1].at))
  {
    hide Good, Ordered, Flows, Agrees, Messages, Entries, FoldAll;
    StayLength(s, c);
    if |got| > s.starts[c] {
      var k := |got| - s.starts[c];
      StayMessages(Line(s, c), s.starts[c], got, k);
      GuestStream(s, c);
      StayRebuilds(s, c, k);
      var ms := Msgs(Stay(s, c)[..k]);
      ResetFold(got[..s.starts[c]], ms[0], ms[1..]);
      assert ms == [ms[0]] + ms[1..];
      assert got == got[..s.starts[c]] + ms == got[..s.starts[c]] + [ms[0]] + ms[1..];
    }
  }

  lemma StayLength(s: Stage, c: Conn)
    requires Ordered(s) && c in s.logs
    ensures c in s.starts && s.starts[c] <= |Line(s, c)| && |Stay(s, c)| == |Line(s, c)| - s.starts[c]
    ensures Stay(s, c) == Entries(Line(s, c)[s.starts[c]..]) && |Messages(Line(s, c))| == |Line(s, c)|
  {
    hide Regulars, NoneAbove, RegularsRise, Pending;
  }

  lemma StayMessages(line: seq<Item>, start: nat, got: seq<Msg>, k: nat)
    requires start <= |line| && got <= Messages(line) && |got| == start + k
    ensures k <= |Entries(line[start..])| && got[start..] == Msgs(Entries(line[start..])[..k])
  {
  }

  lemma StayRebuilds(s: Stage, c: Conn, k: nat)
    requires Flows(s, c) && c in s.logs && c in s.capable && 0 < k <= |Stay(s, c)| && Stay(s, c)[0].msg.Snapshot?
    ensures var stay := Stay(s, c);
            && Msgs(stay[..k])[0].Snapshot? && Agrees(FoldAll(Msgs(stay[..k])), stay[k - 1].play, stay[k - 1].at)
  {
    hide Agrees, Current, ProbeOk, Harmless, Stay;
    var stay := Stay(s, c);
    assert Msgs(stay[..k])[0] == stay[0].msg;
    CopyIffSnapshot(Msgs(stay[..k]));
    assert Right(FoldAll(Msgs(stay[..k])), stay[k - 1].play, stay[k - 1].at);
  }
}
