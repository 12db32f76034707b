/**
 One room's playback and its delivery at lock granularity. A handler that holds
 the room's syncMu changes the state in one critical section and then queues its
 messages one connection at a time; meanwhile connections close and other rooms'
 handlers run. The answer to a ping takes its snapshot and queues it without
 syncMu. A message that cannot be queued closes its connection.
 */
module Delivery {
  import opened Base
  import opened Text
  import opened Tracks
  import opened Playback
  import opened Replica

  type Conn = nat

  /** A queued message, with the state it was made from and when. */
  datatype Entry = Entry(msg: Msg, play: Play, at: int)

  /** What the holder of syncMu has still to queue, connection by connection. */
  type Job = map<Conn, seq<Msg>>

  /** One place in a connection's queue: a message sent under syncMu or a ping's,
      with the state it was made from and when. */
  datatype Item = Item(msg: Msg, play: Play, at: int, canary: bool)

  /** A ping's snapshot on its way to the queue, which was `mark` long when it was taken. */
  datatype Probe = Probe(msg: Msg, play: Play, at: int, mark: nat)

  datatype Stage = Stage(
    play: Play,
    clock: int,
    members: set<Conn>,
    guests: set<Conn>,            // whoever's stay began with a snapshot: everybody but the room's creator
    capable: set<Conn>,           // connections with the update_track feature
    closed: set<Conn>,
    job: Option<Job>,             // Some while syncMu is held
    logs: map<Conn, seq<Entry>>,  // what was queued under syncMu to each member during its stay
    lines: map<Conn, seq<Item>>,  // everything this room queued to each connection
    starts: map<Conn, nat>,       // where in the queue the stay began
    probes: map<Conn, Probe>)     // one ping at a time is answered on a connection

  datatype Step =
    | Found(c: Conn)
    | Act(e: Event, now: int)
    | Join(c: Conn, now: int)
    | Leave(c: Conn)
    | RequestSync(c: Conn, now: int)
    | BufferReady(c: Conn, now: int)
    | Queue(c: Conn, fits: bool)
    | Finish
    | Close(c: Conn)
    | TakeCanary(c: Conn, now: int)
    | QueueCanary(c: Conn, fits: bool)

  predicate Idle(s: Stage, now: int) { s.job.None? && s.clock <= now && Clock(now) }

  predicate CanStep(s: Stage, a: Step)
  {
    match a
    case Found(c) => s.job.None? && s.members == {} && s.logs == map[]
    case Act(e, now) => Idle(s, now) && EventOk(e) && s.play.revision + 1 < TWO64
    case Join(c, now) => Idle(s, now) && c !in s.members
    case Leave(c) => s.job.None?
    case RequestSync(c, now) => Idle(s, now) && c in s.members
    case BufferReady(c, now) => Idle(s, now) && c in s.members && s.play.track.Some?
    case Queue(c, _) => s.job.Some? && c in s.job.value && s.job.value[c] != []
    case Finish => s.job.Some? && forall c :: c in s.job.value ==> s.job.value[c] == []
    case Close(c) => true
    case TakeCanary(c, now) => c in s.members && c !in s.probes && s.clock <= now && Clock(now)
    case QueueCanary(c, _) => c in s.probes
  }

  /** What this room queued to the connection, in order. */
  function Line(s: Stage, c: Conn): seq<Item> { if c in s.lines then s.lines[c] else [] }

  function Canary(p: Probe): Item { Item(p.msg, p.play, p.at, true) }

  /** Who hears of an event: everybody, but update_track only goes to those who know it. */
  function Audience(s: Stage, m: Sync): set<Conn> { if m.action.UpdateTrack? then s.members * s.capable else s.members }

  function Stepped(s: Stage, a: Step): Stage
    requires CanStep(s, a)
  {
    match a
    case Found(c) =>
      s.(members := {c}, guests := s.guests - {c}, logs := map[c := []], starts := s.starts[c := |Line(s, c)|])
    case Act(e, now) =>
      var (p, o) := Apply(s.play, e, now);
      s.(play := p, clock := now, job := Some(if o.Applied? then map c | c in Audience(s, o.msg) ::
        [Update(o.msg)] else map[]))
    case Join(c, now) =>
      s.(clock := now, members := s.members + {c}, guests := s.guests + {c}, logs := s.logs[c := []],
         starts := s.starts[c := |Line(s, c)|], job := Some(map[c := [SnapshotOf(s.play, now)]]))
    case Leave(c) => s.(members := s.members - {c})
    case RequestSync(c, now) => s.(clock := now, job := Some(map[c := [SnapshotOf(s.play, now)]]))
    case BufferReady(c, now) => s.(clock := now, job := Some(map[c := Nudges(s.play, now)]))
    case Queue(c, fits) =>
      var ms := s.job.value[c];
      var t := s.(job := Some(s.job.value[c := ms[1..]]));
      if c in s.closed then t
      else if fits && c in s.logs then t.(logs := s.logs[c := s.logs[c] + [Entry(ms[0], s.play, s.clock)]],
                                          lines := s.lines[c := Line(s, c) + [Item(ms[0], s.play, s.clock, false)]])
      else t.(closed := s.closed + {c})
    case Finish => s.(job := None)
    case Close(c) => s.(closed := s.closed + {c})
    case TakeCanary(c, now) =>
      s.(clock := now, probes := s.probes[c := Probe(SnapshotOf(s.play, now), s.play, now, |Line(s, c)|)])
    case QueueCanary(c, fits) =>
      var t := s.(probes := s.probes - {c});
      if c in s.closed then t
      else if fits then t.(lines := s.lines[c := Line(s, c) + [Canary(s.probes[c])]])
      else t.(closed := s.closed + {c})
  }

  // ---- what a member was sent ----

  function Msgs(log: seq<Entry>): seq<Msg> { seq(|log|, i requires 0 <= i < |log| => log[i].msg) }

  function Todo(s: Stage, c: Conn): seq<Msg> { if s.job.Some? && c in s.job.value then s.job.value[c] else [] }

  /** Whoever has a copy of the room has the right one. */
  ghost predicate Right(v: Option<View>, p: Play, t: int) { v.Some? ==> Agrees(v, p, t) }

  /** Every prefix of the log rebuilds the state its last message was made from. */
  ghost predicate Rebuilds(log: seq<Entry>)
  {
    forall k :: 0 < k <= |log| ==> Right(FoldAll(Msgs(log[..k])), log[k - 1].play, log[k - 1].at)
  }

  /** A listener has a copy from the first snapshot on. */
  lemma {:induction false} CopyIffSnapshot(ms: seq<Msg>)
    ensures FoldAll(ms).Some? <==> exists m :: m in ms && m.Snapshot?
  {
    if ms != [] {
      CopyIffSnapshot(ms[..|ms| - 1]);
      assert ms == ms[..|ms| - 1] + [ms[|ms| - 1]];
    }
  }

  /** Revisions never go down. */
  predicate Rising(log: seq<Entry>, limit: nat)
  {
    && (forall i, j :: 0 <= i < j < |log| ==> Revision(log[i].msg) <= Revision(log[j].msg))
    && (forall i :: 0 <= i < |log| ==> Revision(log[i].msg) <= limit)
  }

  /** With each message still to come, and after the last, the member is up to date. */
  ghost predicate Current(log: seq<Entry>, todo: seq<Msg>, p: Play, t: int)
  {
    && (todo == [] ==> Right(FoldAll(Msgs(log)), p, t))
    && (forall k :: 0 < k <= |todo| ==> Right(FoldAll(Msgs(log) + todo[..k]), p, t))
  }

  /** What was queued during a stay is in order, and rebuilds the room for
      everybody who understands all of it. */
  ghost predicate Faithful(s: Stage, c: Conn)
    requires c in s.logs
  {
    (c in s.capable ==> Rebuilds(s.logs[c])) && Rising(s.logs[c], s.play.revision)
  }

  /** A guest's stay begins with a snapshot, queued or owed. */
  predicate Greeted(s: Stage, c: Conn)
    requires c in s.logs
  {
    var log := s.logs[c];
    if log != [] then log[0].msg.Snapshot?
    else c in s.members && c !in s.closed ==> Todo(s, c) != [] && Todo(s, c)[0].Snapshot?
  }

  /** An open member lacks nothing but what is being queued right now. */
  ghost predicate InStep(s: Stage, c: Conn)
  {
    && c in s.logs
    && (c in s.capable && c !in s.closed ==> Current(s.logs[c], Todo(s, c), s.play, s.clock))
    && (forall m :: m in Todo(s, c) ==> Revision(m) == s.play.revision)
  }

  ghost predicate Good(s: Stage)
  {
    && PlayInv(s.play, s.clock) && Clock(s.clock)
    && (forall c :: c in s.logs ==> Faithful(s, c) && (c in s.guests ==> Greeted(s, c)))
    && (forall c :: c in s.members ==> InStep(s, c))
    && (s.job.Some? ==> s.job.value.Keys <= s.members)
  }

  // ---- step by step ----

  lemma MsgsAppend(log: seq<Entry>, e: Entry)
    ensures Msgs(log + [e]) == Msgs(log) + [e.msg]
  {
  }

  lemma OweOne(log: seq<Entry>, m: Msg, p: Play, t: int)
    requires Right(Fold(FoldAll(Msgs(log)), m), p, t)
    ensures Current(log, [m], p, t)
  {
    hide Right, Fold, FoldAll;
    FoldMore(Msgs(log), m);
    assert [m][..1] == [m];
  }

  lemma OweTwo(log: seq<Entry>, m: Msg, n: Msg, p: Play, t: int)
    requires Right(Fold(FoldAll(Msgs(log)), m), p, t) && Right(Fold(Fold(FoldAll(Msgs(log)), m), n), p, t)
    ensures Current(log, [m, n], p, t)
  {
    hide Right, Fold, FoldAll, Msgs;
    FoldMore(Msgs(log), m);
    FoldMore(Msgs(log) + [m], n);
    assert [m, n][..1] == [m] && [m, n][..2] == [m, n];
    assert Msgs(log) + [m, n] == (Msgs(log) + [m]) + [n];
  }

  /** Queueing the next owed message keeps the promise. */
  lemma PayOne(log: seq<Entry>, todo: seq<Msg>, p: Play, t: int)
    requires Rebuilds(log) && Current(log, todo, p, t) && todo != []
    ensures var log' := log + [Entry(todo[0], p, t)]; Rebuilds(log') && Current(log', todo[1..], p, t)
  {
    hide Right;
    var log' := log + [Entry(todo[0], p, t)];
    MsgsAppend(log, Entry(todo[0], p, t));
    assert todo[..1] == [todo[0]];
    assert Right(FoldAll(Msgs(log')), p, t);
    forall k | 0 < k <= |log'| ensures Right(FoldAll(Msgs(log'[..k])), log'[k - 1].play, log'[k - 1].at) {
      if k < |log'| { assert log'[..k] == log[..k]; } else { assert log'[..k] == log'; }
    }
    forall k | 0 < k <= |todo[1..]| ensures Right(FoldAll(Msgs(log') + todo[1..][..k]), p, t) {
      assert Msgs(log') + todo[1..][..k] == Msgs(log) + todo[..k + 1];
    }
  }

  lemma RisingMore(log: seq<Entry>, e: Entry, limit: nat)
    requires Rising(log, limit) && Revision(e.msg) == limit
    ensures Rising(log + [e], limit)
  {
  }

  lemma RisingLimit(log: seq<Entry>, limit: nat, higher: nat)
    requires Rising(log, limit) && limit <= higher
    ensures Rising(log, higher)
  {
  }

  lemma ActKeeps(s: Stage, e: Event, now: int)
    requires Good(s) && CanStep(s, Act(e, now))
    ensures Good(Stepped(s, Act(e, now)))
  {
    hide PlayInv, Rebuilds, Rising, Current, Agrees, Apply, EventOk;
    var t := Stepped(s, Act(e, now));
    ApplyKeepsInv(s.play, e, s.clock, now);
    ApplyCounts(s.play, e, now);
    forall c | c in t.logs ensures Faithful(t, c) && (c in t.guests ==> Greeted(t, c)) {
      assert Faithful(s, c) && (c in s.guests ==> Greeted(s, c));
      RisingLimit(s.logs[c], s.play.revision, t.play.revision);
    }
    forall c | c in t.members ensures InStep(t, c) {
      assert InStep(s, c);
      if c in s.capable && c !in s.closed { ActCurrent(s, e, now, c); }
    }
  }

  lemma ActCurrent(s: Stage, e: Event, now: int, c: Conn)
    requires Good(s) && CanStep(s, Act(e, now)) && c in s.members && c in s.capable && c !in s.closed
    ensures var t := Stepped(s, Act(e, now)); c in t.logs && Current(t.logs[c], Todo(t, c), t.play, t.clock)
  {
    hide PlayInv, Rebuilds, Rising, Agrees, Apply, EventOk;
    assert InStep(s, c);
    var v := FoldAll(Msgs(s.logs[c]));
    var (p, o) := Apply(s.play, e, now);
    if o.Applied? {
      if v.Some? { BroadcastAgrees(v, s.play, e, s.clock, now); }
      OweOne(s.logs[c], Update(o.msg), p, now);
    } else if v.Some? {
      SilenceAgrees(v, s.play, e, s.clock, now);
    }
  }

  lemma JoinKeeps(s: Stage, c: Conn, now: int)
    requires Good(s) && CanStep(s, Join(c, now))
    ensures Good(Stepped(s, Join(c, now)))
  {
    hide PlayInv, Rebuilds, Rising, Current, Agrees, SnapshotOf;
    var t := Stepped(s, Join(c, now));
    InvLater(s.play, s.clock, now);
    forall d | d in t.logs ensures Faithful(t, d) && (d in t.guests ==> Greeted(t, d)) {
      if d == c {
        EmptyLog(s.play.revision);
        SnapshotRevision(s.play, now);
      } else {
        assert Faithful(s, d) && (d in s.guests ==> Greeted(s, d));
      }
    }
    forall d | d in t.members ensures InStep(t, d) {
      if d == c {
        SnapshotAgrees(FoldAll(Msgs([])), s.play, s.clock, now);
        OweOne([], SnapshotOf(s.play, now), s.play, now);
        SnapshotRevision(s.play, now);
      } else {
        assert InStep(s, d);
        if d in s.capable && d !in s.closed { TimePasses(s, d, now); }
      }
    }
  }

  lemma SnapshotRevision(p: Play, now: int)
    ensures Revision(SnapshotOf(p, now)) == p.revision && SnapshotOf(p, now).Snapshot?
  {
  }

  lemma EmptyLog(limit: nat)
    ensures Rebuilds([]) && Rising([], limit)
  {
  }

  /** Without a snapshot first, updates make no copy. */
  lemma NudgesAlone(p: Play, now: int)
    requires p.track.Some?
    ensures forall a :: Fold(None, Nudge(p, now, a)).None?
  {
  }

  /** A member owed nothing stays up to date while time passes. */
  lemma TimePasses(s: Stage, c: Conn, now: int)
    requires InStep(s, c) && s.job.None? && s.clock <= now && c in s.capable && c !in s.closed
    ensures Current(s.logs[c], [], s.play, now)
  {
    if FoldAll(Msgs(s.logs[c])).Some? { AgreesLater(FoldAll(Msgs(s.logs[c])), s.play, s.clock, now); }
  }

  lemma SyncKeeps(s: Stage, c: Conn, now: int)
    requires Good(s) && CanStep(s, RequestSync(c, now))
    ensures Good(Stepped(s, RequestSync(c, now)))
  {
    hide PlayInv, Rebuilds, Rising, Current, Agrees, SnapshotOf;
    var t := Stepped(s, RequestSync(c, now));
    InvLater(s.play, s.clock, now);
    forall d | d in t.logs ensures Faithful(t, d) && (d in t.guests ==> Greeted(t, d)) {
      assert Faithful(s, d) && (d in s.guests ==> Greeted(s, d));
    }
    forall d | d in t.members ensures InStep(t, d) {
      assert InStep(s, d);
      if d == c {
        SnapshotAgrees(FoldAll(Msgs(s.logs[c])), s.play, s.clock, now);
        OweOne(s.logs[c], SnapshotOf(s.play, now), s.play, now);
        SnapshotRevision(s.play, now);
      } else if d in s.capable && d !in s.closed {
        TimePasses(s, d, now);
      }
    }
  }

  lemma BufferKeeps(s: Stage, c: Conn, now: int)
    requires Good(s) && CanStep(s, BufferReady(c, now))
    ensures Good(Stepped(s, BufferReady(c, now)))
  {
    hide PlayInv, Rebuilds, Rising, Current, Agrees, Nudge;
    var t := Stepped(s, BufferReady(c, now));
    InvLater(s.play, s.clock, now);
    forall d | d in t.logs ensures Faithful(t, d) && (d in t.guests ==> Greeted(t, d)) {
      assert Faithful(s, d) && (d in s.guests ==> Greeted(s, d));
    }
    forall d | d in t.members ensures InStep(t, d) {
      assert InStep(s, d);
      if d == c {
        NudgeRevision(s.play, now);
        if c in s.capable && c !in s.closed { BufferCurrent(s, c, now); }
      } else if d in s.capable && d !in s.closed {
        TimePasses(s, d, now);
      }
    }
  }

  lemma NudgeRevision(p: Play, now: int)
    requires p.track.Some?
    ensures forall m :: m in Nudges(p, now) ==> Revision(m) == p.revision
  {
  }

  lemma BufferCurrent(s: Stage, c: Conn, now: int)
    requires Good(s) && CanStep(s, BufferReady(c, now)) && c in s.capable && c !in s.closed
    ensures c in s.logs && Current(s.logs[c], Nudges(s.play, now), s.play, now)
  {
    hide PlayInv, Rebuilds, Rising, Agrees, Nudge;
    assert InStep(s, c);
    var v := FoldAll(Msgs(s.logs[c]));
    var second := if s.play.playing then PlayAct else Pause;
    if v.Some? {
      NudgeAgrees(v, s.play, s.clock, now, Seek);
      InvLater(s.play, s.clock, now);
      NudgeAgrees(Fold(v, Nudge(s.play, now, Seek)), s.play, now, now, second);
    } else {
      NudgesAlone(s.play, now);
    }
    OweTwo(s.logs[c], Nudge(s.play, now, Seek), Nudge(s.play, now, second), s.play, now);
  }

  lemma QueueKeeps(s: Stage, c: Conn, fits: bool)
    requires Good(s) && CanStep(s, Queue(c, fits))
    ensures Good(Stepped(s, Queue(c, fits)))
  {
    hide PlayInv, Rebuilds, Rising, Current;
    var t := Stepped(s, Queue(c, fits));
    assert InStep(s, c);
    var ms := s.job.value[c];
    assert ms[0] in ms && forall m :: m in ms[1..] ==> m in ms;
    if c !in s.closed && fits {
      assert Faithful(s, c);
      RisingMore(s.logs[c], Entry(ms[0], s.play, s.clock), s.play.revision);
      if c in s.capable { PayOne(s.logs[c], ms, s.play, s.clock); }
    }
    forall d | d in t.logs ensures Faithful(t, d) && (d in t.guests ==> Greeted(t, d)) {
      assert Faithful(s, d) && (d in s.guests ==> Greeted(s, d));
    }
    forall d | d in t.members ensures InStep(t, d) {
      if d != c { assert InStep(s, d); }
    }
  }

  lemma RestKeeps(s: Stage, a: Step)
    requires Good(s) && CanStep(s, a) && (a.Leave? || a.Finish? || a.Close? || a.QueueCanary?)
    ensures Good(Stepped(s, a))
  {
    hide PlayInv, Rebuilds, Rising, Current;
    var t := Stepped(s, a);
    assert t.play == s.play && t.clock == s.clock && t.logs == s.logs && t.guests == s.guests && t.capable == s.capable;
    assert t.members <= s.members && s.closed <= t.closed && forall d :: d in t.members ==> Todo(t, d) == Todo(s, d);
    forall d | d in t.logs ensures Faithful(t, d) && (d in t.guests ==> Greeted(t, d)) {
      assert Faithful(s, d) && (d in s.guests ==> Greeted(s, d));
    }
    forall d | d in t.members ensures InStep(t, d) { assert InStep(s, d); }
  }

  lemma StepKeeps(s: Stage, a: Step)
    requires Good(s) && CanStep(s, a)
    ensures Good(Stepped(s, a))
  {
    hide Good, CanStep, Stepped;
    match a
    case Act(e, now) => ActKeeps(s, e, now);
    case Join(c, now) => JoinKeeps(s, c, now);
    case RequestSync(c, now) => SyncKeeps(s, c, now);
    case BufferReady(c, now) => BufferKeeps(s, c, now);
    case Queue(c, fits) => QueueKeeps(s, c, fits);
    case Leave(_) => RestKeeps(s, a);
    case Finish => RestKeeps(s, a);
    case Close(_) => RestKeeps(s, a);
    case TakeCanary(c, now) => TakeKeeps(s, c, now);
    case QueueCanary(_, _) => RestKeeps(s, a);
    case Found(c) => FoundKeeps(s, c);
  }

  /** What was right stays right while time passes. */
  lemma CurrentLater(log: seq<Entry>, todo: seq<Msg>, p: Play, t: int, later: int)
    requires Current(log, todo, p, t) && t <= later
    ensures Current(log, todo, p, later)
  {
    hide Msgs, FoldAll;
    forall v | Right(v, p, t) ensures Right(v, p, later) { RightLater(v, p, t, later); }
  }

  lemma RightLater(v: Option<View>, p: Play, t: int, later: int)
    requires Right(v, p, t) && t <= later
    ensures Right(v, p, later)
  {
    if v.Some? { AgreesLater(v, p, t, later); }
  }

  lemma TakeKeeps(s: Stage, c: Conn, now: int)
    requires Good(s) && CanStep(s, TakeCanary(c, now))
    ensures Good(Stepped(s, TakeCanary(c, now)))
  {
    hide PlayInv, Rebuilds, Rising, Current, SnapshotOf;
    var t := Stepped(s, TakeCanary(c, now));
    InvLater(s.play, s.clock, now);
    forall d | d in t.logs ensures Faithful(t, d) && (d in t.guests ==> Greeted(t, d)) {
      assert Faithful(s, d) && (d in s.guests ==> Greeted(s, d));
    }
    forall d | d in t.members ensures InStep(t, d) {
      assert InStep(s, d);
      if d in s.capable && d !in s.closed { CurrentLater(s.logs[d], Todo(s, d), s.play, s.clock, now); }
    }
  }

  lemma FoundKeeps(s: Stage, c: Conn)
    requires Good(s) && CanStep(s, Found(c))
    ensures Good(Stepped(s, Found(c)))
  {
    hide PlayInv, Rebuilds, Rising;
    EmptyLog(s.play.revision);
  }

  // ---- what a step owes ----

  /** A published event is owed to every member, update_track only to those who know
      it; an event that is not published is owed to nobody. */
  lemma EventIsOwed(s: Stage, e: Event, now: int, c: Conn)
    requires CanStep(s, Act(e, now))
    ensures var t := Stepped(s, Act(e, now)); var (p, o) := Apply(s.play, e, now);
            && t == s.(play := p, clock := now, job := t.job) && t.job.Some?
            && Todo(t, c) == if o.Applied? && c in s.members && (o.msg.action.UpdateTrack? ==> c in s.capable)
                             then [Update(o.msg)] else []
  {
    hide Apply;
  }

  /** Whoever joins, or asks for it, is owed a snapshot of the present moment, which
      puts them right whatever they had before; nobody else is owed anything. */
  lemma SnapshotIsOwed(s: Stage, c: Conn, now: int, a: Step, v: Option<View>)
    requires Good(s) && (a == Join(c, now) || a == RequestSync(c, now)) && CanStep(s, a)
    ensures var t := Stepped(s, a);
            && c in t.members && t.play == s.play && t.clock == now
            && |Todo(t, c)| == 1 && Agrees(Fold(v, Todo(t, c)[0]), s.play, now)
            && Revision(Todo(t, c)[0]) == s.play.revision
            && forall d :: d != c ==> Todo(t, d) == []
  {
    hide PlayInv, Agrees, SnapshotOf, Fold, Faithful, Greeted, InStep;
    SnapshotAgrees(v, s.play, s.clock, now);
    SnapshotRevision(s.play, now);
  }

  /** Whoever has buffered is owed two messages that put them on the timeline if they
      have track, queue and play flag. */
  lemma NudgesAreOwed(s: Stage, c: Conn, now: int, v: Option<View>)
    requires Good(s) && CanStep(s, BufferReady(c, now))
    requires v.Some? && v.value.track == s.play.track && v.value.playing == s.play.playing
             && v.value.queue == s.play.queue
    ensures var t := Stepped(s, BufferReady(c, now));
            && t.play == s.play && t.clock == now && |Todo(t, c)| == 2
            && Agrees(Fold(v, Todo(t, c)[0]), s.play, now)
            && Agrees(Fold(Fold(v, Todo(t, c)[0]), Todo(t, c)[1]), s.play, now)
            && forall d :: d != c ==> Todo(t, d) == []
  {
    hide PlayInv, Agrees, Nudge, Fold, Faithful, Greeted, InStep;
    NudgeSets(v, s.play, s.clock, now, Seek);
    InvLater(s.play, s.clock, now);
    NudgeAgrees(Fold(v, Nudge(s.play, now, Seek)), s.play, now, now, if s.play.playing then PlayAct else Pause);
  }

  /** What is owed is paid: to an open connection with room for it, the first owed
      message is queued next; a connection without room is closed, and that or being
      closed from outside is the only way to be closed. */
  lemma OwedIsPaid(s: Stage, a: Step, c: Conn)
    requires Good(s) && CanStep(s, a)
    ensures c in Stepped(s, a).closed <==>
            c in s.closed || a == Close(c) || a == Queue(c, false) || a == QueueCanary(c, false)
    ensures var t := Stepped(s, a);
            a.Queue? && a.c == c ==> Todo(t, c) == Todo(s, c)[1..]
    ensures var t := Stepped(s, a);
            a == Queue(c, true) && c !in s.closed ==>
              Line(t, c) == Line(s, c) + [Item(Todo(s, c)[0], s.play, s.clock, false)]
    ensures var t := Stepped(s, a);
            a == QueueCanary(c, true) && c !in s.closed ==>
              Line(t, c) == Line(s, c) + [Item(s.probes[c].msg, s.probes[c].play, s.probes[c].at, true)]
  {
    hide PlayInv, Apply, Faithful, Greeted, SnapshotOf;
    if a.Queue? { assert InStep(s, a.c); }
  }

  // ---- whole runs ----

  predicate CanRun(s: Stage, run: seq<Step>)
    decreases |run|
  {
    run != [] ==> CanStep(s, run[0]) && CanRun(Stepped(s, run[0]), run[1..])
  }

  function Ran(s: Stage, run: seq<Step>): Stage
    requires CanRun(s, run)
    decreases |run|
  {
    if run == [] then s else Ran(Stepped(s, run[0]), run[1..])
  }

  lemma {:induction false} RunKeeps(s: Stage, run: seq<Step>)
    requires Good(s) && CanRun(s, run)
    ensures Good(Ran(s, run))
    decreases |run|
  {
    hide Good, CanStep, Stepped;
    if run != [] {
      StepKeeps(s, run[0]);
      RunKeeps(Stepped(s, run[0]), run[1..]);
    }
  }

  /** A room before anybody is in it: a new one, or one just restored. */
  predicate Opening(s: Stage)
  {
    && PlayInv(s.play, s.clock) && Clock(s.clock) && s.members == {} && s.logs == map[] && s.job.None?
    && s.lines == map[] && s.probes == map[]
  }

  /** Every received prefix rebuilds the room, over every interleaving: once a
      member has read a snapshot - and everybody but the creator reads one first -
      folding whatever part of its queue it has read gives the track, queue, play
      flag and, at every later time, the live position of the state the last
      message was made from. */
  lemma EveryPrefixRebuilds(s: Stage, run: seq<Step>, c: Conn, k: nat)
    requires Opening(s) && CanRun(s, run) && c in Ran(s, run).logs && c in Ran(s, run).capable
             && 0 < k <= |Ran(s, run).logs[c]|
    ensures var log := Ran(s, run).logs[c];
            && ((exists m :: m in Msgs(log[..k]) && m.Snapshot?) ==>
                 Agrees(FoldAll(Msgs(log[..k])), log[k - 1].play, log[k - 1].at))
            && (c in Ran(s, run).guests ==> log[0].msg.Snapshot? && Agrees(FoldAll(Msgs(log[..k])), log[k - 1].play, log[k - 1].at))
  {
    hide CanStep, Stepped, PlayInv, Agrees, Rising, Current;
    RunKeeps(s, run);
    var e := Ran(s, run);
    assert Faithful(e, c) && (c in e.guests ==> Greeted(e, c));
    CopyIffSnapshot(Msgs(e.logs[c][..k]));
    if c in e.guests { assert Msgs(e.logs[c][..k])[0] == e.logs[c][0].msg; }
  }

  /** Nothing is missing: an open member who has a copy, and to whom nothing is
      being sent, has the present state; every guest then has one. */
  lemma OpenMembersAreCurrent(s: Stage, run: seq<Step>, c: Conn)
    requires Opening(s) && CanRun(s, run)
    requires var e := Ran(s, run); c in e.members && c in e.capable && c !in e.closed && Todo(e, c) == []
    ensures var e := Ran(s, run);
            && c in e.logs
            && (FoldAll(Msgs(e.logs[c])).Some? || c in e.guests ==> Agrees(FoldAll(Msgs(e.logs[c])), e.play, e.clock))
  {
    hide CanStep, Stepped, PlayInv, Agrees, Rebuilds, Rising;
    RunKeeps(s, run);
    var e := Ran(s, run);
    assert InStep(e, c);
    if c in e.guests {
      assert Greeted(e, c);
      CopyIffSnapshot(Msgs(e.logs[c]));
      assert Msgs(e.logs[c])[0] == e.logs[c][0].msg;
    }
  }

  /** The revisions queued under syncMu to one connection during one stay never go
      down, the creator's included. */
  lemma RevisionsRise(s: Stage, run: seq<Step>, c: Conn, i: nat, j: nat)
    requires Opening(s) && CanRun(s, run) && c in Ran(s, run).logs && i < j < |Ran(s, run).logs[c]|
    ensures Revision(Ran(s, run).logs[c][i].msg) <= Revision(Ran(s, run).logs[c][j].msg) <= Ran(s, run).play.revision
  {
    hide CanStep, Stepped, PlayInv, Rebuilds;
    RunKeeps(s, run);
    assert Faithful(Ran(s, run), c);
  }
}
