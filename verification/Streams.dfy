/**
 Everything a connection receives, answers to pings included: as long as each
 ping's snapshot is queued before anything newer, whatever part of the stream a
 listener has read rebuilds the room.
 */
module Streams {
  import opened Base
  import opened Text
  import opened Tracks
  import opened Playback
  import opened Replica
  import opened Delivery
  import opened Canaries

  // ---- the stream of one stay ----

  function Entries(line: seq<Item>): seq<Entry>
  {
    seq(|line|, i requires 0 <= i < |line| => Entry(line[i].msg, line[i].play, line[i].at))
  }

  /** Everything queued to c since its stay began. */
  function Stay(s: Stage, c: Conn): seq<Entry>
  {
    if c in s.starts && s.starts[c] <= |Line(s, c)| then Entries(Line(s, c)[s.starts[c]..]) else []
  }

  lemma EntriesMore(line: seq<Item>, start: nat, x: Item)
    requires start <= |line|
    ensures Entries((line + [x])[start..]) == Entries(line[start..]) + [Entry(x.msg, x.play, x.at)]
  {
    assert (line + [x])[start..] == line[start..] + [x];
  }

  /** What is owed to c makes up for the pending snapshot being older. */
  ghost predicate MadeUp(m: Msg, todo: seq<Msg>, p: Play, t: int)
  {
    todo != [] && forall k :: 0 < k <= |todo| ==> Right(FoldAll([m] + todo[..k]), p, t)
  }

  ghost predicate Listening(s: Stage, c: Conn) { c in s.members && c in s.capable && c !in s.closed }

  ghost predicate ProbeOk(s: Stage, c: Conn)
    requires c in s.probes
  {
    var p := s.probes[c];
    && c in s.logs && p.msg.Snapshot? && Agrees(Fold(None, p.msg), p.play, p.at)
    && (Revision(p.msg) == s.play.revision ==> Agrees(Fold(None, p.msg), s.play, s.clock))
    && (Listening(s, c) && InTime(s, c) && Revision(p.msg) < s.play.revision ==>
         MadeUp(p.msg, Todo(s, c), s.play, s.clock))
  }

  ghost predicate Flows(s: Stage, c: Conn)
  {
    && (c in s.logs && c in s.capable ==> Rebuilds(Stay(s, c)))
    && (Listening(s, c) ==> Current(Stay(s, c), Todo(s, c), s.play, s.clock))
    && AllHarmless(Todo(s, c), s.play, s.clock)
    && (c in s.probes ==> ProbeOk(s, c))
    && (forall i :: 0 <= i < |Line(s, c)| && Line(s, c)[i].canary ==> Line(s, c)[i].msg.Snapshot?)
  }

  // ---- step by step ----

  /** Steps that leave c's queue, debts and playback alone; time may pass. */
  lemma SameFlows(s: Stage, t: Stage, c: Conn)
    requires Flows(s, c) && t.play == s.play && s.clock <= t.clock && Line(t, c) == Line(s, c)
             && Stay(t, c) == Stay(s, c)
    requires Todo(t, c) == Todo(s, c) && (c in t.logs <==> c in s.logs) && t.capable == s.capable
    requires Listening(t, c) ==> Listening(s, c)
    requires c in t.probes ==> c in s.probes && t.probes[c] == s.probes[c]
    ensures Flows(t, c)
  {
    hide Rebuilds, Current, Agrees, MadeUp, Harmless, Fold;
    if Listening(t, c) { CurrentLater(Stay(s, c), Todo(s, c), s.play, s.clock, t.clock); }
    forall m | m in Todo(t, c) ensures Harmless(m, t.play, t.clock) { HarmlessLater(m, s.play, s.clock, t.clock); }
    if c in t.probes {
      var m := s.probes[c].msg;
      if Revision(m) == s.play.revision { AgreesLater(Fold(None, m), s.play, s.clock, t.clock); }
      if MadeUp(m, Todo(s, c), s.play, s.clock) { MadeUpLater(m, Todo(s, c), s.play, s.clock, t.clock); }
    }
  }

  lemma MadeUpLater(m: Msg, todo: seq<Msg>, p: Play, t: int, later: int)
    requires MadeUp(m, todo, p, t) && t <= later
    ensures MadeUp(m, todo, p, later)
  {
    hide FoldAll, Right;
    forall v | Right(v, p, t) ensures Right(v, p, later) { RightLater(v, p, t, later); }
  }

  /** c is owed nothing: a pending snapshot that is in time is as new as the room. */
  lemma IdleProbe(s: Stage, c: Conn)
    requires Flows(s, c) && Ordered(s) && c in s.probes && Listening(s, c) && Todo(s, c) == [] && InTime(s, c)
    ensures Revision(s.probes[c].msg) == s.play.revision
  {
    hide Rebuilds, Current, Agrees, Harmless, Fold, Right, NoneAbove, RegularsRise, Pending, Regulars, InTime;
  }

  lemma ActFlows(s: Stage, e: Event, now: int, c: Conn)
    requires Good(s) && Ordered(s) && Flows(s, c) && CanStep(s, Act(e, now))
    ensures Flows(Stepped(s, Act(e, now)), c)
  {
    hide PlayInv, Rebuilds, Current, Agrees, Apply, Harmless, Fold, Faithful, Greeted, InStep, InTime, Ordered, EventOk;
    var t := Stepped(s, Act(e, now));
    ApplyKeepsInv(s.play, e, s.clock, now);
    ApplyCounts(s.play, e, now);
    assert Line(t, c) == Line(s, c) && Stay(t, c) == Stay(s, c) && Todo(s, c) == [];
    if Apply(s.play, e, now).1.Applied? {
      BroadcastHarmless(s.play, e, now);
      if Listening(s, c) { ActStream(s, e, now, c); }
      if c in s.probes { ActProbe(s, t, e, now, c); }
    } else {
      QuietEvent(s, t, e, now, c);
    }
  }

  lemma ActStream(s: Stage, e: Event, now: int, c: Conn)
    requires Good(s) && Flows(s, c) && CanStep(s, Act(e, now)) && Listening(s, c) && Apply(s.play, e, now).1.Applied?
    ensures Current(Stay(s, c), [Update(Apply(s.play, e, now).1.msg)], Apply(s.play, e, now).0, now)
  {
    hide PlayInv, Rebuilds, Agrees, Apply, Harmless, Faithful, Greeted, InStep, ProbeOk, EventOk;
    var v := FoldAll(Msgs(Stay(s, c)));
    if v.Some? { BroadcastAgrees(v, s.play, e, s.clock, now); }
    OweOne(Stay(s, c), Update(Apply(s.play, e, now).1.msg), Apply(s.play, e, now).0, now);
  }

  lemma ActProbe(s: Stage, t: Stage, e: Event, now: int, c: Conn)
    requires Good(s) && Ordered(s) && Flows(s, c) && CanStep(s, Act(e, now)) && t == Stepped(s, Act(e, now))
             && c in s.probes
    requires Apply(s.play, e, now).1.Applied? && t.play.revision == s.play.revision + 1
    ensures ProbeOk(t, c)
  {
    hide PlayInv, Rebuilds, Current, Agrees, Apply, Harmless, Fold, Faithful, Greeted, InStep, InTime, EventOk,
      NoneAbove, RegularsRise, Pending, Regulars;
    var m := s.probes[c].msg;
    assert Revision(m) <= s.play.revision;
    assert Line(t, c) == Line(s, c) && Todo(s, c) == [];
    assert InTime(t, c) <==> InTime(s, c) by { SameTiming(s, t, c); }
    if Listening(t, c) && InTime(t, c) {
      IdleProbe(s, c);
      var u := Update(Apply(s.play, e, now).1.msg);
      BroadcastAgrees(Fold(None, m), s.play, e, s.clock, now);
      FoldMore([], m);
      FoldMore([m], u);
      assert [] + [m] == [m] && [u][..1] == [u];
      assert c in Audience(s, Apply(s.play, e, now).1.msg) && Todo(t, c) == [u];
      assert Right(FoldAll([m] + [u][..1]), t.play, now);
    }
  }

  lemma SameTiming(s: Stage, t: Stage, c: Conn)
    requires c in s.probes && c in t.probes && t.probes[c] == s.probes[c] && Line(t, c) == Line(s, c)
    ensures InTime(t, c) <==> InTime(s, c)
  {
  }

  /** An event that is not published changes nothing a listener follows. */
  lemma QuietEvent(s: Stage, t: Stage, e: Event, now: int, c: Conn)
    requires Good(s) && Ordered(s) && Flows(s, c) && CanStep(s, Act(e, now)) && t == Stepped(s, Act(e, now))
    requires !Apply(s.play, e, now).1.Applied? && t.play.revision == s.play.revision
    ensures Flows(t, c)
  {
    hide PlayInv, Rebuilds, Agrees, Apply, Harmless, Fold, Faithful, Greeted, InStep, InTime, EventOk, Ordered;
    assert Line(t, c) == Line(s, c) && Stay(t, c) == Stay(s, c) && Todo(s, c) == [] && Todo(t, c) == [];
    if Listening(t, c) {
      var v := FoldAll(Msgs(Stay(s, c)));
      if v.Some? { SilenceAgrees(v, s.play, e, s.clock, now); }
    }
    if c in s.probes {
      var m := s.probes[c].msg;
      SameTiming(s, t, c);
      if Revision(m) == s.play.revision { SilenceAgrees(Fold(None, m), s.play, e, s.clock, now); }
      if Listening(s, c) && InTime(s, c) { IdleProbe(s, c); }
    }
  }

  /** c, who was owed nothing, is now owed messages about the present state. */
  lemma OweFlows(s: Stage, t: Stage, c: Conn)
    requires Flows(s, c) && Ordered(s) && t.play == s.play && s.clock <= t.clock && Line(t, c) == Line(s, c)
             && Stay(t, c) == Stay(s, c)
    requires Todo(s, c) == [] && t.logs == s.logs && t.capable == s.capable && t.members == s.members
             && t.closed == s.closed
    requires t.probes == s.probes && AllHarmless(Todo(t, c), t.play, t.clock)
    requires Listening(s, c) ==> Current(Stay(s, c), Todo(t, c), t.play, t.clock)
    ensures Flows(t, c)
  {
    hide Rebuilds, Current, Agrees, MadeUp, Harmless, Fold, Ordered, InTime;
    if c in t.probes {
      var m := s.probes[c].msg;
      SameTiming(s, t, c);
      if Revision(m) == s.play.revision { AgreesLater(Fold(None, m), s.play, s.clock, t.clock); }
      if Listening(s, c) && InTime(s, c) { IdleProbe(s, c); }
    }
  }

  lemma SyncFlows(s: Stage, d: Conn, now: int, c: Conn)
    requires Good(s) && Ordered(s) && Flows(s, c) && CanStep(s, RequestSync(d, now))
    ensures Flows(Stepped(s, RequestSync(d, now)), c)
  {
    hide PlayInv, Rebuilds, Current, Agrees, Harmless, Faithful, Greeted, InStep, SnapshotOf, Flows, Ordered;
    var t := Stepped(s, RequestSync(d, now));
    if c == d {
      SnapshotAgrees(FoldAll(Msgs(Stay(s, c))), s.play, s.clock, now);
      OweOne(Stay(s, c), SnapshotOf(s.play, now), s.play, now);
      SnapshotHarmless(s.play, s.clock, now);
      OweFlows(s, t, c);
    } else {
      SameFlows(s, t, c);
    }
  }

  lemma BufferFlows(s: Stage, d: Conn, now: int, c: Conn)
    requires Good(s) && Ordered(s) && Flows(s, c) && CanStep(s, BufferReady(d, now))
    ensures Flows(Stepped(s, BufferReady(d, now)), c)
  {
    hide PlayInv, Rebuilds, Agrees, Harmless, Faithful, Greeted, InStep, Nudge, Ordered, ProbeOk;
    var t := Stepped(s, BufferReady(d, now));
    if c == d {
      var second := if s.play.playing then PlayAct else Pause;
      NudgeHarmless(s.play, s.clock, now, Seek);
      NudgeHarmless(s.play, s.clock, now, second);
      if Listening(s, c) { BufferStream(s, now, c); }
      OweFlows(s, t, c);
    } else {
      SameFlows(s, t, c);
    }
  }

  lemma BufferStream(s: Stage, now: int, c: Conn)
    requires Good(s) && Flows(s, c) && CanStep(s, BufferReady(c, now)) && Listening(s, c)
    ensures Current(Stay(s, c), Nudges(s.play, now), s.play, now)
  {
    hide PlayInv, Rebuilds, Agrees, Harmless, Faithful, Greeted, InStep, Nudge, ProbeOk;
    var v := FoldAll(Msgs(Stay(s, c)));
    var second := if s.play.playing then PlayAct else Pause;
    if v.Some? {
      NudgeAgrees(v, s.play, s.clock, now, Seek);
      InvLater(s.play, s.clock, now);
      NudgeAgrees(Fold(v, Nudge(s.play, now, Seek)), s.play, now, now, second);
    } else {
      NudgesAlone(s.play, now);
    }
    OweTwo(Stay(s, c), Nudge(s.play, now, Seek), Nudge(s.play, now, second), s.play, now);
  }

  lemma NoEntries(line: seq<Item>)
    ensures Entries(line[|line|..]) == [] && Msgs([]) == [] && Rebuilds([])
  {
  }

  lemma JoinFlows(s: Stage, d: Conn, now: int, c: Conn)
    requires Good(s) && Ordered(s) && Flows(s, c) && CanStep(s, Join(d, now))
    ensures Flows(Stepped(s, Join(d, now)), c)
  {
    hide PlayInv, Rebuilds, Current, Agrees, Harmless, Faithful, Greeted, InStep, SnapshotOf, Ordered, InTime, Fold;
    var t := Stepped(s, Join(d, now));
    assert Line(t, c) == Line(s, c);
    if c == d {
      var m := SnapshotOf(s.play, now);
      NoEntries(Line(s, c));
      SnapshotAgrees(FoldAll(Msgs([])), s.play, s.clock, now);
      OweOne([], m, s.play, now);
      SnapshotHarmless(s.play, s.clock, now);
      if c in s.probes { JoinProbe(s, t, now, c); }
    } else {
      SameFlows(s, t, c);
    }
  }

  /** A snapshot left over from an earlier stay is followed by the welcome. */
  lemma JoinProbe(s: Stage, t: Stage, now: int, c: Conn)
    requires Good(s) && Flows(s, c) && CanStep(s, Join(c, now)) && t == Stepped(s, Join(c, now)) && c in s.probes
    ensures ProbeOk(t, c)
  {
    hide PlayInv, Rebuilds, Current, Agrees, Harmless, Faithful, Greeted, InStep, SnapshotOf, InTime, Fold;
    var m, w := s.probes[c].msg, SnapshotOf(s.play, now);
    if Revision(m) == s.play.revision { AgreesLater(Fold(None, m), s.play, s.clock, now); }
    SnapshotAgrees(FoldAll([m]), s.play, s.clock, now);
    FoldMore([m], w);
    assert [w][..1] == [w] && Todo(t, c) == [w];
    assert Right(FoldAll([m] + [w][..1]), s.play, now);
  }

  lemma TakeFlows(s: Stage, d: Conn, now: int, c: Conn)
    requires Good(s) && Flows(s, c) && CanStep(s, TakeCanary(d, now))
    ensures Flows(Stepped(s, TakeCanary(d, now)), c)
  {
    hide PlayInv, Rebuilds, Current, Agrees, Harmless, Faithful, Greeted, SnapshotOf, Fold;
    var t := Stepped(s, TakeCanary(d, now));
    if c == d {
      SameFlows(s, t.(probes := t.probes - {c}), c);
      assert InStep(s, c);
      SnapshotAgrees(None, s.play, s.clock, now);
      SnapshotRevision(s.play, now);
      FlowsWithProbe(t.(probes := t.probes - {c}), t, c);
    } else {
      SameFlows(s, t, c);
    }
  }

  lemma FlowsWithProbe(s: Stage, t: Stage, c: Conn)
    requires Flows(s, c) && c in t.probes && t == s.(probes := t.probes) && ProbeOk(t, c)
    ensures Flows(t, c)
  {
    hide Rebuilds, Current, Agrees, Harmless, Fold, ProbeOk;
    assert Stay(t, c) == Stay(s, c) && Line(t, c) == Line(s, c) && Todo(t, c) == Todo(s, c);
  }

  /** The next owed message goes out. */
  lemma QueueFlows(s: Stage, c: Conn)
    requires Good(s) && Ordered(s) && Flows(s, c) && CanStep(s, Queue(c, true)) && c !in s.closed
    ensures Flows(Stepped(s, Queue(c, true)), c)
  {
    hide PlayInv, Rebuilds, Current, Agrees, Harmless, Faithful, Greeted, Fold, NoneAbove, RegularsRise, Pending,
      Regulars, InTime;
    var t := Stepped(s, Queue(c, true));
    assert InStep(s, c);
    var ms := s.job.value[c];
    var x := Item(ms[0], s.play, s.clock, false);
    assert ms[0] in ms && forall m :: m in ms[1..] ==> m in ms;
    EntriesMore(Line(s, c), s.starts[c], x);
    assert Stay(t, c) == Stay(s, c) + [Entry(ms[0], s.play, s.clock)] && Todo(t, c) == ms[1..];
    if c in s.capable { PayOne(Stay(s, c), ms, s.play, s.clock); }
    if c in s.probes { QueueProbe(s, t, c); }
  }

  lemma QueueProbe(s: Stage, t: Stage, c: Conn)
    requires Good(s) && Ordered(s) && Flows(s, c) && CanStep(s, Queue(c, true)) && c !in s.closed && c in s.probes
    requires t == Stepped(s, Queue(c, true))
    ensures ProbeOk(t, c)
  {
    hide PlayInv, Rebuilds, Current, Agrees, Harmless, Faithful, Greeted, Fold, NoneAbove, RegularsRise, Regulars,
      MadeUp;
    assert InStep(s, c);
    assert s.job.value[c][0] in s.job.value[c];
    assert Line(t, c)[|Line(s, c)|].msg == s.job.value[c][0];
    assert Pending(Line(s, c), s.probes[c]);
    assert Revision(s.probes[c].msg) < s.play.revision ==> !InTime(t, c);
  }

  /** A canary that is in time goes out. */
  lemma CanaryFlows(s: Stage, c: Conn)
    requires Good(s) && Ordered(s) && Flows(s, c) && Queues(s, QueueCanary(c, true), c) && InTime(s, c)
    ensures Flows(Stepped(s, QueueCanary(c, true)), c)
  {
    hide PlayInv, Rebuilds, Current, Agrees, Harmless, Faithful, Greeted, InStep, Fold, NoneAbove, RegularsRise,
      Regulars, Pending, InTime;
    var t := Stepped(s, QueueCanary(c, true));
    var p := s.probes[c];
    EntriesMore(Line(s, c), s.starts[c], Canary(p));
    assert Stay(t, c) == Stay(s, c) + [Entry(p.msg, p.play, p.at)] && Todo(t, c) == Todo(s, c);
    if c in s.capable { ProbeRebuilds(Stay(s, c), Entry(p.msg, p.play, p.at)); }
    if Listening(s, c) { ProbeCurrent(s, c); }
  }

  lemma ProbeRebuilds(log: seq<Entry>, x: Entry)
    requires Rebuilds(log) && x.msg.Snapshot? && Agrees(Fold(None, x.msg), x.play, x.at)
    ensures Rebuilds(log + [x])
  {
    hide Agrees;
    var log' := log + [x];
    MsgsAppend(log, x);
    FoldMore(Msgs(log), x.msg);
    forall k | 0 < k <= |log'| ensures Right(FoldAll(Msgs(log'[..k])), log'[k - 1].play, log'[k - 1].at) {
      if k < |log'| { assert log'[..k] == log[..k]; } else { assert log'[..k] == log'; }
    }
  }

  lemma ProbeCurrent(s: Stage, c: Conn)
    requires Ordered(s) && Flows(s, c) && c in s.probes && Listening(s, c) && InTime(s, c)
    ensures var p := s.probes[c]; Current(Stay(s, c) + [Entry(p.msg, p.play, p.at)], Todo(s, c), s.play, s.clock)
  {
    hide Rebuilds, Agrees, Harmless, Fold, NoneAbove, RegularsRise, Regulars, Pending, InTime, FoldAll;
    var p, todo := s.probes[c], Todo(s, c);
    var log := Stay(s, c) + [Entry(p.msg, p.play, p.at)];
    assert Revision(p.msg) <= s.play.revision;
    MsgsAppend(Stay(s, c), Entry(p.msg, p.play, p.at));
    if todo == [] {
      IdleProbe(s, c);
      HarmlessFold(p.msg, [], s.play, s.clock);
      ResetFold(Msgs(Stay(s, c)), p.msg, []);
      assert Msgs(log) == Msgs(Stay(s, c)) + [p.msg] + [];
    }
    forall k | 0 < k <= |todo| ensures Right(FoldAll(Msgs(log) + todo[..k]), s.play, s.clock) {
      ResetFold(Msgs(Stay(s, c)), p.msg, todo[..k]);
      assert Msgs(log) + todo[..k] == Msgs(Stay(s, c)) + [p.msg] + todo[..k];
      if Revision(p.msg) == s.play.revision {
        assert forall m :: m in todo[..k] ==> m in todo;
        HarmlessFold(p.msg, todo[..k], s.play, s.clock);
      }
    }
  }

  lemma FoundFlows(s: Stage, d: Conn, c: Conn)
    requires Good(s) && Flows(s, c) && CanStep(s, Found(d))
    ensures Flows(Stepped(s, Found(d)), c)
  {
    hide PlayInv, Agrees, Harmless, Fold;
    var t := Stepped(s, Found(d));
    assert Line(t, c) == Line(s, c);
    if c == d {
      NoEntries(Line(s, c));
      assert FoldAll(Msgs([])).None?;
    }
  }

  /** A message that cannot be queued closes the connection, or finds it closed. */
  lemma DroppedFlows(s: Stage, c: Conn, fits: bool)
    requires Good(s) && Flows(s, c) && CanStep(s, Queue(c, fits)) && (c in s.closed || !fits)
    ensures Flows(Stepped(s, Queue(c, fits)), c)
  {
    hide PlayInv, Rebuilds, Current, Agrees, Harmless, Faithful, Greeted, InStep, Fold, MadeUp, InTime;
    var t := Stepped(s, Queue(c, fits));
    assert Line(t, c) == Line(s, c) && Stay(t, c) == Stay(s, c) && !Listening(t, c);
    assert forall m :: m in s.job.value[c][1..] ==> m in s.job.value[c];
  }

  /** Nothing is queued to c. */
  lemma RestFlows(s: Stage, a: Step, c: Conn)
    requires Flows(s, c) && CanStep(s, a) && (a.Leave? || a.Finish? || a.Close?)
    ensures Flows(Stepped(s, a), c)
  {
    hide Flows;
    SameFlows(s, Stepped(s, a), c);
  }

  lemma OtherFlows(s: Stage, a: Step, c: Conn)
    requires Flows(s, c) && CanStep(s, a) && a.Queue? && a.c != c
    ensures Flows(Stepped(s, a), c)
  {
    hide Flows;
    SameFlows(s, Stepped(s, a), c);
  }

  lemma LostFlows(s: Stage, a: Step, c: Conn)
    requires Flows(s, c) && CanStep(s, a) && a.QueueCanary? && !Queues(s, a, c)
    ensures Flows(Stepped(s, a), c)
  {
    hide Flows;
    SameFlows(s, Stepped(s, a), c);
  }

  lemma StepFlows(s: Stage, a: Step, c: Conn)
    requires Good(s) && Ordered(s) && Flows(s, c) && CanStep(s, a) && (Queues(s, a, c) ==> InTime(s, c))
    ensures Flows(Stepped(s, a), c)
  {
    hide Good, Ordered, Flows, CanStep, Stepped, InTime;
    if Queues(s, a, c) {
      CanaryFlows(s, c);
    } else if a == Queue(c, true) && c !in s.closed {
      QueueFlows(s, c);
    } else {
      match a
      case Act(e, now) => ActFlows(s, e, now, c);
      case Join(d, now) => JoinFlows(s, d, now, c);
      case RequestSync(d, now) => SyncFlows(s, d, now, c);
      case BufferReady(d, now) => BufferFlows(s, d, now, c);
      case TakeCanary(d, now) => TakeFlows(s, d, now, c);
      case Found(d) => FoundFlows(s, d, c);
      case Queue(d, fits) => if d == c { DroppedFlows(s, c, fits); } else { OtherFlows(s, a, c); }
      case Leave(_) => RestFlows(s, a, c);
      case Finish => RestFlows(s, a, c);
      case Close(_) => RestFlows(s, a, c);
      case QueueCanary(_, _) => LostFlows(s, a, c);
    }
  }

  // ---- whole runs ----

  lemma OpeningFlows(s: Stage, c: Conn)
    requires Opening(s)
    ensures Flows(s, c)
  {
    hide PlayInv;
  }

  lemma {:induction false} RunFlows(s: Stage, run: seq<Step>, c: Conn)
    requires Good(s) && Ordered(s) && Flows(s, c) && CanRun(s, run) && Prompt(s, run, c)
    ensures Good(Ran(s, run)) && Ordered(Ran(s, run)) && Flows(Ran(s, run), c)
    decreases |run|
  {
    hide Good, Ordered, Flows, CanStep, Stepped, InTime, Queues;
    if run != [] {
      StepKeeps(s, run[0]);
      StepOrdered(s, run[0]);
      StepFlows(s, run[0], c);
      RunFlows(Stepped(s, run[0]), run[1..], c);
    }
  }

  lemma {:induction false} FirstRegular(line: seq<Item>)
    requires line != [] && !line[0].canary
    ensures Regulars(line) != [] && Regulars(line)[0] == line[0].msg
  {
    if |line| > 1 { FirstRegular(line[..|line| - 1]); }
  }

  /** A guest's stream begins with a snapshot. */
  lemma GuestStream(s: Stage, c: Conn)
    requires Good(s) && Ordered(s) && Flows(s, c) && c in s.logs && c in s.guests && Stay(s, c) != []
    ensures Stay(s, c)[0].msg.Snapshot?
  {
    hide PlayInv, Rebuilds, Current, Agrees, Harmless, InStep, NoneAbove, RegularsRise, Pending, Regulars, ProbeOk;
    var line := Line(s, c)[s.starts[c]..];
    assert Greeted(s, c);
    if !line[0].canary {
      FirstRegular(line);
      assert Msgs(s.logs[c])[0] == s.logs[c][0].msg;
    } else {
      assert line[0] == Line(s, c)[s.starts[c]];
    }
  }

  /** Over every interleaving in which c's ping snapshots are in time: whatever part
      of its stream c has read since its stay began, pings' answers included,
      rebuilds the state the last message was made from. */
  lemma EveryStreamRebuilds(s: Stage, run: seq<Step>, c: Conn, k: nat)
    requires Opening(s) && CanRun(s, run) && Prompt(s, run, c) && c in Ran(s, run).logs && c in Ran(s, run).capable
    requires 0 < k <= |Stay(Ran(s, run), c)|
    ensures var e := Ran(s, run); var got := Stay(e, c);
            && Right(FoldAll(Msgs(got[..k])), got[k - 1].play, got[k - 1].at)
            && (c in e.guests ==> Agrees(FoldAll(Msgs(got[..k])), got[k - 1].play, got[k - 1].at))
  {
    hide Good, Ordered, Ran, CanRun, Prompt, Opening, Agrees, Current, ProbeOk, Harmless;
    OpeningOrdered(s);
    OpeningFlows(s, c);
    RunFlows(s, run, c);
    var e := Ran(s, run);
    if c in e.guests {
      GuestStream(e, c);
      CopyIffSnapshot(Msgs(Stay(e, c)[..k]));
      assert Msgs(Stay(e, c)[..k])[0] == Stay(e, c)[0].msg;
    }
  }

  /** And an open member to whom nothing is being sent has the present state. */
  lemma StreamsAreCurrent(s: Stage, run: seq<Step>, c: Conn)
    requires Opening(s) && CanRun(s, run) && Prompt(s, run, c)
    requires var e := Ran(s, run); Listening(e, c) && Todo(e, c) == []
    ensures var e := Ran(s, run); Right(FoldAll(Msgs(Stay(e, c))), e.play, e.clock)
  {
    hide Good, Ordered, Ran, CanRun, Prompt, Opening, Agrees, Rebuilds, ProbeOk, Harmless;
    OpeningOrdered(s);
    OpeningFlows(s, c);
    RunFlows(s, run, c);
  }
}
