/**
 A connection's outbound queue (`sendEncodedMessage`, `closeSendWith` and the
 dequeue of `writePump`): bounded in messages and bytes, and without gaps,
 because a message that does not fit closes the connection.
 */
module Outbox {
  import opened Base

  const MAX_QUEUED := 8_388_608 // 8 MiB
  const CAPACITY := 256

  function Total(q: seq<Str>): nat { if q == [] then 0 else |q[0]| + Total(q[1..]) }

  lemma {:induction false} TotalAppend(q: seq<Str>, m: Str)
    ensures Total(q + [m]) == Total(q) + |m|
  {
    if q == [] {
      assert q + [m] == [m] && [m][1..] == [];
    } else {
      assert (q + [m])[1..] == q[1..] + [m];
      TotalAppend(q[1..], m);
    }
  }

  /** A queue as a value: what was taken by the writer, what waits, and what the
      byte counter says; a message taken but not yet deducted is still counted. */
  datatype Box = Box(closed: bool, taken: seq<Str>, queue: seq<Str>, bytes: int, due: nat)

  predicate Empty(b: Box) { !b.closed && b.taken == [] && b.queue == [] && b.bytes == 0 && b.due == 0 }

  predicate Fits(b: Box, m: Str) { b.bytes + |m| <= MAX_QUEUED && |b.queue| < CAPACITY }

  /** `sendEncodedMessage`. */
  function Offered(b: Box, m: Str): Box
  {
    if b.closed then b
    else if Fits(b, m) then b.(queue := b.queue + [m], bytes := b.bytes + |m|)
    else b.(closed := true)
  }

  /** The writer receives from the channel, then deducts under the lock. */
  function Dequeued(b: Box): Box
    requires b.queue != [] && b.due == 0
  {
    b.(taken := b.taken + [b.queue[0]], queue := b.queue[1..], due := |b.queue[0]|)
  }

  function Deducted(b: Box): Box { b.(bytes := b.bytes - b.due, due := 0) }

  datatype Op = Send(m: Str) | Close | Dequeue | Deduct

  predicate CanDo(b: Box, op: Op) { op.Dequeue? ==> b.queue != [] && b.due == 0 }

  function Do(b: Box, op: Op): Box
    requires CanDo(b, op)
  {
    match op
    case Send(m) => Offered(b, m)
    case Close => b.(closed := true)
    case Dequeue => Dequeued(b)
    case Deduct => Deducted(b)
  }

  predicate CanDoAll(b: Box, ops: seq<Op>)
    decreases |ops|
  {
    ops != [] ==> CanDo(b, ops[0]) && CanDoAll(Do(b, ops[0]), ops[1..])
  }

  function DoAll(b: Box, ops: seq<Op>): Box
    requires CanDoAll(b, ops)
    decreases |ops|
  {
    if ops == [] then b else DoAll(Do(b, ops[0]), ops[1..])
  }

  /** Everything the server tried to send. */
  function Sent(ops: seq<Op>): seq<Str>
  {
    if ops == [] then [] else (if ops[0].Send? then [ops[0].m] else []) + Sent(ops[1..])
  }

  predicate Sound(b: Box)
  {
    b.bytes == Total(b.queue) + b.due && b.bytes <= MAX_QUEUED && |b.queue| <= CAPACITY
  }

  lemma DoKeepsSound(b: Box, op: Op)
    requires Sound(b) && CanDo(b, op)
    ensures Sound(Do(b, op))
  {
    if op.Send? { TotalAppend(b.queue, op.m); }
  }

  /** `before` was offered so far: everything accepted is a prefix of it, and all
      of it while the connection is open. */
  predicate Gapless(b: Box, before: seq<Str>)
  {
    b.taken + b.queue <= before && (!b.closed ==> b.taken + b.queue == before)
  }

  lemma DoKeepsGapless(b: Box, op: Op, before: seq<Str>)
    requires Gapless(b, before) && CanDo(b, op)
    ensures Gapless(Do(b, op), before + if op.Send? then [op.m] else [])
  {
    match op
    case Send(m) =>
      if !b.closed { assert b.taken + (b.queue + [m]) == (b.taken + b.queue) + [m]; }
    case Dequeue =>
      assert b.queue == [b.queue[0]] + b.queue[1..];
      assert (b.taken + [b.queue[0]]) + b.queue[1..] == b.taken + b.queue;
    case _ =>
  }

  lemma {:induction false} RunKeepsGapless(b: Box, ops: seq<Op>, before: seq<Str>)
    requires Sound(b) && Gapless(b, before) && CanDoAll(b, ops)
    ensures Sound(DoAll(b, ops)) && Gapless(DoAll(b, ops), before + Sent(ops))
    decreases |ops|
  {
    hide Sound, Gapless, Do;
    if ops == [] {
      assert before + Sent(ops) == before;
    } else {
      var more := if ops[0].Send? then [ops[0].m] else [];
      DoKeepsSound(b, ops[0]);
      DoKeepsGapless(b, ops[0], before);
      RunKeepsGapless(Do(b, ops[0]), ops[1..], before + more);
      assert (before + more) + Sent(ops[1..]) == before + Sent(ops);
    }
  }

  /** No gaps over any run: the writer has taken, in order and without omission,
      a prefix of what was sent; the backlog stays within its bounds; and
      everything sent to an open connection is taken or waiting. */
  lemma NoGaps(b: Box, ops: seq<Op>)
    requires Empty(b) && CanDoAll(b, ops)
    ensures var e := DoAll(b, ops);
            && e.taken <= Sent(ops) && (!e.closed ==> e.taken + e.queue == Sent(ops))
            && Total(e.queue) <= MAX_QUEUED && |e.queue| <= CAPACITY && e.bytes == Total(e.queue) + e.due
  {
    hide Do, DoAll, CanDoAll, Sent;
    RunKeepsGapless(b, ops, []);
    assert [] + Sent(ops) == Sent(ops);
    PrefixPart(DoAll(b, ops).taken, DoAll(b, ops).queue, Sent(ops));
  }

  lemma PrefixPart(a: seq<Str>, b: seq<Str>, c: seq<Str>)
    requires a + b <= c
    ensures a <= c
  {
    assert a == (a + b)[..|a|];
  }

  /** The step closes an open queue: it is asked to, or brings a message for which
      there is no room left. */
  predicate Shuts(b: Box, op: Op)
  {
    op.Close? || (op.Send? && (b.bytes + |op.m| > 8_388_608 || |b.queue| >= 256))
  }

  lemma DoClosesIff(b: Box, op: Op)
    requires CanDo(b, op)
    ensures Do(b, op).closed <==> b.closed || Shuts(b, op)
    ensures op.Send? && !b.closed && !Shuts(b, op) ==>
              Do(b, op) == b.(queue := b.queue + [op.m], bytes := b.bytes + |op.m|)
  {
  }

  /** A connection is never closed for nothing: over any run it ends up closed
      exactly if somebody closed it or a message found no room when it was sent. */
  lemma {:induction false} ClosesOnlyWhenFull(b: Box, ops: seq<Op>)
    requires CanDoAll(b, ops)
    ensures DoAll(b, ops).closed <==>
            b.closed || exists k :: 0 <= k < |ops| && CanDoAll(b, ops[..k]) && Shuts(DoAll(b, ops[..k]), ops[k])
    decreases |ops|
  {
    hide Do, Shuts;
    if ops != [] {
      var c := Do(b, ops[0]);
      DoClosesIff(b, ops[0]);
      ClosesOnlyWhenFull(c, ops[1..]);
      assert CanDoAll(b, ops[..0]) && DoAll(b, ops[..0]) == b;
      forall k | 0 < k < |ops|
        ensures CanDoAll(b, ops[..k]) <==> CanDoAll(c, ops[1..][..k - 1])
        ensures CanDoAll(b, ops[..k]) ==> DoAll(b, ops[..k]) == DoAll(c, ops[1..][..k - 1])
      {
        assert ops[..k][1..] == ops[1..][..k - 1];
      }
      if b.closed || exists k :: 0 <= k < |ops| && CanDoAll(b, ops[..k]) && Shuts(DoAll(b, ops[..k]), ops[k]) {
        if !b.closed && !Shuts(b, ops[0]) {
          var k :| 0 <= k < |ops| && CanDoAll(b, ops[..k]) && Shuts(DoAll(b, ops[..k]), ops[k]);
          assert ops[1..][k - 1] == ops[k] && CanDoAll(c, ops[1..][..k - 1]);
          assert Shuts(DoAll(c, ops[1..][..k - 1]), ops[1..][k - 1]);
        }
      }
      if c.closed || exists k :: 0 <= k < |ops[1..]| && CanDoAll(c, ops[1..][..k]) && Shuts(DoAll(c, ops[1..][..k]), ops[1..][k]) {
        if c.closed && !b.closed {
          assert Shuts(DoAll(b, ops[..0]), ops[0]);
        } else if !c.closed {
          var k :| 0 <= k < |ops[1..]| && CanDoAll(c, ops[1..][..k]) && Shuts(DoAll(c, ops[1..][..k]), ops[1..][k]);
          assert CanDoAll(b, ops[..k + 1]) && Shuts(DoAll(b, ops[..k + 1]), ops[k + 1]);
        }
      }
    }
  }

  /** The queue fields of a connection. */
  class Queue {
    var closed: bool
    var send: seq<Str>
    var queuedBytes: int
    var due: nat
    ghost var taken: seq<Str>

    constructor ()
      ensures Empty(State())
    {
      closed, send, queuedBytes, due := false, [], 0, 0;
      taken := [];
    }

    ghost function State(): Box
      reads this
    {
      Box(closed, taken, send, queuedBytes, due)
    }

    method SendEncoded(m: Str)
      modifies this
      ensures State() == Offered(old(State()), m)
    {
      if closed { return; }
      if queuedBytes + |m| <= MAX_QUEUED {
        if |send| < CAPACITY {
          send := send + [m];
          queuedBytes := queuedBytes + |m|;
          return;
        }
      }
      closed := true;
    }

    method CloseSend()
      modifies this
      ensures State() == old(State()).(closed := true)
    {
      if !closed { closed := true; }
    }

    /** One round of the writer; None when nothing is queued. */
    method Write() returns (m: Option<Str>)
      requires due == 0
      modifies this
      ensures old(send) == [] ==> m.None? && State() == old(State())
      ensures old(send) != [] ==> m == Some(old(send)[0]) && State() == Deducted(Dequeued(old(State())))
    {
      if send == [] { return None; }
      m := Some(send[0]);
      taken, due := taken + [send[0]], |send[0]|;
      send := send[1..];
      queuedBytes := queuedBytes - due;
      due := 0;
    }
  }
}
