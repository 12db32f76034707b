/**
 The answers to pings, which are queued without syncMu: exactly when one of them
 makes the revisions a connection receives go down, over every run.
 */
module Canaries {
  import opened Base
  import opened Text
  import opened Tracks
  import opened Playback
  import opened Replica
  import opened Delivery

  /** The messages queued under syncMu. */
  function Regulars(line: seq<Item>): seq<Msg>
  {
    if line == [] then []
    else Regulars(line[..|line| - 1]) + if line[|line| - 1].canary then [] else [line[|line| - 1].msg]
  }

  predicate Sorted(line: seq<Item>)
  {
    forall i, j :: 0 <= i < j < |line| ==> Revision(line[i].msg) <= Revision(line[j].msg)
  }

  predicate NoneAbove(line: seq<Item>, r: nat) { forall i :: 0 <= i < |line| ==> Revision(line[i].msg) <= r }

  /** Apart from canaries the queue is sorted. */
  predicate RegularsRise(line: seq<Item>)
  {
    forall i, j :: 0 <= i < j < |line| && !line[i].canary && !line[j].canary ==>
      Revision(line[i].msg) <= Revision(line[j].msg)
  }

  /** A pending canary is as new as everything queued before it was taken, and no
      other canary was queued since. */
  predicate Pending(line: seq<Item>, p: Probe)
  {
    && p.mark <= |line|
    && (forall i :: 0 <= i < p.mark ==> Revision(line[i].msg) <= Revision(p.msg))
    && (forall i :: p.mark <= i < |line| ==> !line[i].canary)
  }

  ghost predicate Ordered(s: Stage)
  {
    && (forall c :: NoneAbove(Line(s, c), s.play.revision) && RegularsRise(Line(s, c)))
    && (forall c :: c in s.probes ==> Pending(Line(s, c), s.probes[c]) && Revision(s.probes[c].msg) <= s.play.revision)
    && (forall c :: c in s.logs ==>
          c in s.starts && s.starts[c] <= |Line(s, c)| && Regulars(Line(s, c)[s.starts[c]..]) == Msgs(s.logs[c]))
  }

  lemma RegularsMore(line: seq<Item>, x: Item)
    ensures Regulars(line + [x]) == Regulars(line) + if x.canary then [] else [x.msg]
  {
    assert (line + [x])[..|line|] == line;
  }

  lemma GrowLine(line: seq<Item>, x: Item, r: nat)
    requires NoneAbove(line, r) && RegularsRise(line) && Revision(x.msg) <= r && (!x.canary ==> Revision(x.msg) == r)
    ensures NoneAbove(line + [x], r) && RegularsRise(line + [x])
  {
  }

  lemma GrowPending(line: seq<Item>, p: Probe, x: Item)
    requires Pending(line, p) && !x.canary
    ensures Pending(line + [x], p)
  {
  }

  lemma GrowStay(line: seq<Item>, start: nat, x: Item)
    requires start <= |line|
    ensures Regulars((line + [x])[start..]) == Regulars(line[start..]) + if x.canary then [] else [x.msg]
  {
    assert (line + [x])[start..] == line[start..] + [x];
    RegularsMore(line[start..], x);
  }

  /** c's queue grows by one item. */
  lemma GrowOrdered(s: Stage, t: Stage, c: Conn, x: Item)
    requires Ordered(s) && t.play == s.play && t.lines == s.lines[c := Line(s, c) + [x]] && t.starts == s.starts
    requires Revision(x.msg) <= s.play.revision && (!x.canary ==> Revision(x.msg) == s.play.revision)
    requires if x.canary then t.probes == s.probes - {c} && t.logs == s.logs
             else && t.probes == s.probes && c in s.logs && c in t.logs && Msgs(t.logs[c]) == Msgs(s.logs[c]) + [x.msg]
                  && t.logs == s.logs[c := t.logs[c]]
    ensures Ordered(t)
  {
    hide NoneAbove, RegularsRise, Pending, Regulars;
    GrowLine(Line(s, c), x, s.play.revision);
    if c in s.logs { GrowStay(Line(s, c), s.starts[c], x); }
    if !x.canary && c in s.probes { GrowPending(Line(s, c), s.probes[c], x); }
    forall d ensures NoneAbove(Line(t, d), t.play.revision) && RegularsRise(Line(t, d)) {
      if d != c { assert Line(t, d) == Line(s, d); }
    }
    forall d | d in t.logs
      ensures d in t.starts && t.starts[d] <= |Line(t, d)| && Regulars(Line(t, d)[t.starts[d]..]) == Msgs(t.logs[d])
    {
      assert d in s.logs;
      if d != c { assert Line(t, d) == Line(s, d); }
    }
  }

  lemma HigherRevision(line: seq<Item>, r: nat, higher: nat)
    requires NoneAbove(line, r) && r <= higher
    ensures NoneAbove(line, higher)
  {
  }

  /** The queues stay; the revision may go up, and stays may begin. */
  lemma SameLines(s: Stage, t: Stage)
    requires Ordered(s) && t.lines == s.lines && s.play.revision <= t.play.revision
    requires forall c :: c in t.probes ==> c in s.probes && t.probes[c] == s.probes[c]
    requires forall c :: c in t.logs ==>
               c in t.starts && ((c in s.logs && t.logs[c] == s.logs[c] && t.starts[c] == s.starts[c])
                                                           || (t.logs[c] == [] && t.starts[c] == |Line(s, c)|))
    ensures Ordered(t)
  {
    hide NoneAbove, RegularsRise, Pending, Regulars;
    forall c ensures NoneAbove(Line(t, c), t.play.revision) && RegularsRise(Line(t, c)) {
      HigherRevision(Line(s, c), s.play.revision, t.play.revision);
    }
    forall c | c in t.logs && t.logs[c] == [] && t.starts[c] == |Line(s, c)|
      ensures Regulars(Line(t, c)[t.starts[c]..]) == Msgs(t.logs[c])
    {
      NoItems(Line(t, c));
    }
  }

  lemma NoItems(line: seq<Item>)
    ensures Regulars(line[|line|..]) == [] && Msgs([]) == []
  {
  }

  lemma TakeOrdered(s: Stage, c: Conn, now: int)
    requires Ordered(s) && CanStep(s, TakeCanary(c, now))
    ensures Ordered(Stepped(s, TakeCanary(c, now)))
  {
    hide RegularsRise, Regulars, SnapshotOf;
    SnapshotRevision(s.play, now);
    var t := Stepped(s, TakeCanary(c, now));
    assert forall d :: Line(t, d) == Line(s, d);
    assert NoneAbove(Line(s, c), s.play.revision);
  }

  lemma QueueOrdered(s: Stage, c: Conn, fits: bool)
    requires Good(s) && Ordered(s) && CanStep(s, Queue(c, fits))
    ensures Ordered(Stepped(s, Queue(c, fits)))
  {
    hide PlayInv, Faithful, Greeted, Current, NoneAbove, RegularsRise, Pending, Regulars, Ordered;
    var t := Stepped(s, Queue(c, fits));
    assert InStep(s, c);
    var ms := s.job.value[c];
    assert ms[0] in ms;
    if c !in s.closed && fits {
      MsgsAppend(s.logs[c], Entry(ms[0], s.play, s.clock));
      GrowOrdered(s, t, c, Item(ms[0], s.play, s.clock, false));
    } else {
      QueuesSame(s, t);
    }
  }

  /** Nothing the order speaks of changed. */
  lemma QueuesSame(s: Stage, t: Stage)
    requires Ordered(s) && t.lines == s.lines && t.play.revision == s.play.revision && t.logs == s.logs
             && t.starts == s.starts
    requires forall c :: c in t.probes ==> c in s.probes && t.probes[c] == s.probes[c]
    ensures Ordered(t)
  {
    hide NoneAbove, RegularsRise, Pending, Regulars;
    SameLines(s, t);
  }

  lemma QueueCanaryOrdered(s: Stage, c: Conn, fits: bool)
    requires Ordered(s) && CanStep(s, QueueCanary(c, fits))
    ensures Ordered(Stepped(s, QueueCanary(c, fits)))
  {
    var t := Stepped(s, QueueCanary(c, fits));
    assert Revision(s.probes[c].msg) <= s.play.revision;
    hide Ordered;
    if c !in s.closed && fits { GrowOrdered(s, t, c, Canary(s.probes[c])); } else { QueuesSame(s, t); }
  }

  lemma ActOrdered(s: Stage, e: Event, now: int)
    requires Ordered(s) && CanStep(s, Act(e, now))
    ensures Ordered(Stepped(s, Act(e, now)))
  {
    hide Apply, NoneAbove, RegularsRise, Pending, Regulars;
    ApplyCounts(s.play, e, now);
    SameLines(s, Stepped(s, Act(e, now)));
  }

  lemma RestOrdered(s: Stage, a: Step)
    requires Ordered(s) && CanStep(s, a)
    requires a.Found? || a.Join? || a.Leave? || a.RequestSync? || a.BufferReady? || a.Finish? || a.Close?
    ensures Ordered(Stepped(s, a))
  {
    hide NoneAbove, RegularsRise, Pending, Regulars, SnapshotOf, Nudges;
    SameLines(s, Stepped(s, a));
  }

  lemma StepOrdered(s: Stage, a: Step)
    requires Good(s) && Ordered(s) && CanStep(s, a)
    ensures Ordered(Stepped(s, a))
  {
    hide Good, Ordered, CanStep, Stepped;
    match a
    case Act(e, now) => ActOrdered(s, e, now);
    case Queue(c, fits) => QueueOrdered(s, c, fits);
    case TakeCanary(c, now) => TakeOrdered(s, c, now);
    case QueueCanary(c, fits) => QueueCanaryOrdered(s, c, fits);
    case Found(_) => RestOrdered(s, a);
    case Join(_, _) => RestOrdered(s, a);
    case Leave(_) => RestOrdered(s, a);
    case RequestSync(_, _) => RestOrdered(s, a);
    case BufferReady(_, _) => RestOrdered(s, a);
    case Finish => RestOrdered(s, a);
    case Close(_) => RestOrdered(s, a);
  }

  lemma {:induction false} RunOrdered(s: Stage, run: seq<Step>)
    requires Good(s) && Ordered(s) && CanRun(s, run)
    ensures Good(Ran(s, run)) && Ordered(Ran(s, run))
    decreases |run|
  {
    hide Good, Ordered, CanStep, Stepped;
    if run != [] {
      StepKeeps(s, run[0]);
      StepOrdered(s, run[0]);
      RunOrdered(Stepped(s, run[0]), run[1..]);
    }
  }

  lemma OpeningOrdered(s: Stage)
    requires Opening(s)
    ensures Good(s) && Ordered(s)
  {
  }

  // ---- when a canary comes too late ----

  /** Nothing newer than the pending canary was queued to c since it was taken. */
  predicate InTime(s: Stage, c: Conn)
    requires c in s.probes
  {
    forall i :: s.probes[c].mark <= i < |Line(s, c)| ==> Revision(Line(s, c)[i].msg) <= Revision(s.probes[c].msg)
  }

  lemma LateIffBehind(s: Stage, c: Conn)
    requires Ordered(s) && c in s.probes
    ensures var line := Line(s, c);
            (line == [] || Revision(line[|line| - 1].msg) <= Revision(s.probes[c].msg)) <==> InTime(s, c)
  {
    hide Regulars, NoneAbove;
    var line, p := Line(s, c), s.probes[c];
    assert Pending(line, p) && RegularsRise(line);
    if line != [] && p.mark < |line| { assert !line[|line| - 1].canary; }
  }

  /** In every reachable state: queueing the pending canary makes the revisions
      drop exactly when something newer was queued to c since it was taken. */
  lemma CanaryFallsBehind(s: Stage, run: seq<Step>, c: Conn)
    requires Opening(s) && CanRun(s, run) && c in Ran(s, run).probes
    ensures var e := Ran(s, run); var line := Line(e, c);
            (line != [] && Revision(line[|line| - 1].msg) > Revision(e.probes[c].msg)) <==> !InTime(e, c)
  {
    hide Good, Ordered, Ran, CanRun, InTime;
    OpeningOrdered(s);
    RunOrdered(s, run);
    LateIffBehind(Ran(s, run), c);
  }

  /** Every canary the run queues to c is in time. */
  predicate Prompt(s: Stage, run: seq<Step>, c: Conn)
    requires CanRun(s, run)
    decreases |run|
  {
    run != [] ==> (Queues(s, run[0], c) ==> InTime(s, c)) && Prompt(Stepped(s, run[0]), run[1..], c)
  }

  /** The step puts a canary into c's queue. */
  predicate Queues(s: Stage, a: Step, c: Conn) { a == QueueCanary(c, true) && c in s.probes && c !in s.closed }

  lemma {:induction false} SortedMore(line: seq<Item>, x: Item)
    ensures Sorted(line + [x]) <==> Sorted(line) && (line == [] || Revision(line[|line| - 1].msg) <= Revision(x.msg))
  {
    var more := line + [x];
    if Sorted(more) {
      assert forall i :: 0 <= i < |line| ==> more[i] == line[i];
      assert line != [] ==> more[|line| - 1] == line[|line| - 1] && more[|line|] == x;
    }
  }

  lemma CanarySorted(s: Stage, c: Conn)
    requires Ordered(s) && Queues(s, QueueCanary(c, true), c)
    ensures Sorted(Line(Stepped(s, QueueCanary(c, true)), c)) <==> Sorted(Line(s, c)) && InTime(s, c)
  {
    hide Sorted, InTime, Ordered;
    SortedMore(Line(s, c), Canary(s.probes[c]));
    LateIffBehind(s, c);
  }

  lemma RegularSorted(s: Stage, c: Conn)
    requires Good(s) && Ordered(s) && CanStep(s, Queue(c, true)) && c !in s.closed
    ensures Sorted(Line(Stepped(s, Queue(c, true)), c)) <==> Sorted(Line(s, c))
  {
    hide Sorted, PlayInv, Faithful, Greeted, Current, Regulars, Pending, RegularsRise;
    assert InStep(s, c);
    var m := s.job.value[c][0];
    assert m in s.job.value[c];
    SortedMore(Line(s, c), Item(m, s.play, s.clock, false));
    assert NoneAbove(Line(s, c), s.play.revision);
  }

  /** Every other step leaves c's queue alone. */
  lemma StepLine(s: Stage, a: Step, c: Conn)
    requires CanStep(s, a) && !Queues(s, a, c) && !(a == Queue(c, true) && c !in s.closed)
    ensures Line(Stepped(s, a), c) == Line(s, c)
  {
    hide Apply, SnapshotOf, Nudges;
  }

  /** A step leaves c's queue, appends to it in order, or queues a canary. */
  lemma StepSorted(s: Stage, a: Step, c: Conn)
    requires Good(s) && Ordered(s) && CanStep(s, a)
    ensures Sorted(Line(Stepped(s, a), c)) <==> Sorted(Line(s, c)) && (Queues(s, a, c) ==> InTime(s, c))
  {
    hide Sorted, InTime, Good, Ordered, CanStep, Stepped;
    if Queues(s, a, c) {
      CanarySorted(s, c);
    } else if a == Queue(c, true) && c !in s.closed {
      RegularSorted(s, c);
    } else {
      StepLine(s, a, c);
    }
  }

  lemma {:induction false} RunSorted(s: Stage, run: seq<Step>, c: Conn)
    requires Good(s) && Ordered(s) && CanRun(s, run)
    ensures Sorted(Line(Ran(s, run), c)) <==> Sorted(Line(s, c)) && Prompt(s, run, c)
    decreases |run|
  {
    hide Good, Ordered, CanStep, Stepped, Sorted, InTime, Queues;
    if run != [] {
      StepKeeps(s, run[0]);
      StepOrdered(s, run[0]);
      StepSorted(s, run[0], c);
      RunSorted(Stepped(s, run[0]), run[1..], c);
    }
  }

  /** The exact condition over whole runs: the revisions queued to a connection,
      canaries included, never go down if and only if every canary was queued
      before anything newer. */
  lemma RevisionsRiseIffPrompt(s: Stage, run: seq<Step>, c: Conn)
    requires Opening(s) && CanRun(s, run)
    ensures Sorted(Line(Ran(s, run), c)) <==> Prompt(s, run, c)
  {
    hide Good, Ordered, Ran, CanRun, Prompt;
    OpeningOrdered(s);
    RunSorted(s, run, c);
  }

  /** What c was sent under syncMu during its stay is its queue without the canaries. */
  lemma LogIsQueueWithoutCanaries(s: Stage, run: seq<Step>, c: Conn)
    requires Opening(s) && CanRun(s, run) && c in Ran(s, run).logs
    ensures var e := Ran(s, run);
            c in e.starts && e.starts[c] <= |Line(e, c)| && Regulars(Line(e, c)[e.starts[c]..]) == Msgs(e.logs[c])
  {
    hide Good, Ran, CanRun, Regulars;
    OpeningOrdered(s);
    RunOrdered(s, run);
  }

  // ---- a canary does come too late ----

  /** c joins and reads its snapshot; a ping takes another; the host clears the
      queue and c is told; then the ping's snapshot is queued. */
  function LateRun(c: Conn, m: Request, now: int): seq<Step>
  {
    [Join(c, now), Queue(c, true), Finish, TakeCanary(c, now), Act(Host(m, 0), now), Queue(c, true), QueueCanary(c, true)]
  }

  lemma RunFrom(s: Stage, run: seq<Step>)
    requires run != [] && CanStep(s, run[0]) && CanRun(Stepped(s, run[0]), run[1..])
    ensures CanRun(s, run) && Ran(s, run) == Ran(Stepped(s, run[0]), run[1..])
  {
    hide CanStep, Stepped;
  }

  lemma Cleared(p: Play, m: Request, now: int)
    requires m.action.QueueClear? && m.hostSeq == 0 && p.revision + 1 < TWO64
    ensures var (q, o) := Apply(p, Host(m, 0), now);
            q.revision == p.revision + 1 && o.Applied? && o.msg.revision == p.revision + 1 && o.msg.action.QueueClear?
  {
  }

  /** The member after its welcome. */
  lemma WelcomedMember(s: Stage, c: Conn) returns (t: Stage)
    requires Opening(s) && c !in s.closed
    ensures CanStep(s, Join(c, s.clock)) && var s1 := Stepped(s, Join(c, s.clock));
            CanStep(s1, Queue(c, true)) && var s2 := Stepped(s1, Queue(c, true)); CanStep(s2, Finish) && t == Stepped(s2, Finish)
    ensures t.play == s.play && t.clock == s.clock && t.members == {c} && t.closed == s.closed && t.job.None?
            && t.probes == map[]
    ensures c in t.logs && |t.logs[c]| == 1 && c in t.lines && |t.lines[c]| == 1
            && Revision(t.lines[c][0].msg) == s.play.revision
  {
    hide PlayInv, SnapshotOf;
    SnapshotRevision(s.play, s.clock);
    t := Stepped(Stepped(Stepped(s, Join(c, s.clock)), Queue(c, true)), Finish);
  }

  /** The news goes out before the older snapshot. */
  lemma Overtaken(t: Stage, c: Conn, m: Request) returns (e: Stage)
    requires t.members == {c} && c !in t.closed && t.job.None? && t.probes == map[] && c in t.logs && c in t.lines
             && |t.lines[c]| == 1
    requires Clock(t.clock) && m.action.QueueClear? && m.hostSeq == 0 && t.play.revision + 1 < TWO64
    ensures var a1, a2, a3, a4 := TakeCanary(c, t.clock), Act(Host(m, 0), t.clock), Queue(c, true), QueueCanary(c, true);
            CanStep(t, a1) && var t1 := Stepped(t, a1); CanStep(t1, a2) && var t2 := Stepped(t1, a2);
            CanStep(t2, a3) && var t3 := Stepped(t2, a3); CanStep(t3, a4) && e == Stepped(t3, a4)
    ensures |Line(e, c)| == 3 && Revision(Line(e, c)[1].msg) == t.play.revision + 1
            && Revision(Line(e, c)[2].msg) == t.play.revision
  {
    hide SnapshotOf, Apply;
    Cleared(t.play, m, t.clock);
    SnapshotRevision(t.play, t.clock);
    var t2 := Stepped(Stepped(t, TakeCanary(c, t.clock)), Act(Host(m, 0), t.clock));
    assert c in Audience(t, Apply(t.play, Host(m, 0), t.clock).1.msg);
    e := Stepped(Stepped(t2, Queue(c, true)), QueueCanary(c, true));
  }

  /** From every opening of a room the revisions a member receives can drop. */
  lemma CanariesDoFallBehind(s: Stage, c: Conn, m: Request)
    requires Opening(s) && c !in s.closed && m.action.QueueClear? && m.hostSeq == 0 && s.play.revision + 1 < TWO64
    ensures var run := LateRun(c, m, s.clock);
            CanRun(s, run) && !Sorted(Line(Ran(s, run), c)) && !Prompt(s, run, c)
  {
    hide CanStep, Stepped, Opening, Prompt, CanRun, Ran;
    var run := LateRun(c, m, s.clock);
    var t := WelcomedMember(s, c);
    assert Clock(t.clock) by { OpeningClock(s); }
    var e := Overtaken(t, c, m);
    var t1 := Stepped(t, run[3]);
    var t2 := Stepped(t1, run[4]);
    var t3 := Stepped(t2, run[5]);
    var s1 := Stepped(s, run[0]);
    var s2 := Stepped(s1, run[1]);
    assert CanRun(e, []) && Ran(e, []) == e by { NoSteps(e); }
    assert run[6..] == [run[6]] && run[6..][1..] == [];
    RunFrom(t3, run[6..]);
    assert run[5..][1..] == run[6..];
    RunFrom(t2, run[5..]);
    assert run[4..][1..] == run[5..];
    RunFrom(t1, run[4..]);
    assert run[3..][1..] == run[4..];
    RunFrom(t, run[3..]);
    assert run[2..][1..] == run[3..];
    RunFrom(s2, run[2..]);
    assert run[1..][1..] == run[2..];
    RunFrom(s1, run[1..]);
    RunFrom(s, run);
    RevisionsRiseIffPrompt(s, run, c);
  }

  lemma OpeningClock(s: Stage)
    requires Opening(s)
    ensures Clock(s.clock)
  {
  }

  lemma NoSteps(s: Stage)
    ensures CanRun(s, []) && Ran(s, []) == s
  {
  }
}
