/**
 The fixed-window rate limiters: messages per connection (`allowMessage`,
 `shouldNotifyRateLimit`) and room creations per source (`allowRoomCreate`).
 */
module RateLimit {
  import opened Base

  const MESSAGE_WINDOW := 1_000_000_000  // a second in nanoseconds
  const CREATE_WINDOW := 60_000_000_000  // a minute in nanoseconds
  const MAX_MESSAGES := 60
  const MAX_CREATES := 10

  /** When the window opened, if one ever did, and how much was let through. */
  datatype Window = Window(start: Option<Time>, count: nat)

  /** The window a call at `now` falls into. */
  function Current(w: Window, now: Time, length: Time): Window
  {
    if w.start.None? || now - w.start.value >= length then Window(Some(now), 0) else w
  }

  /** One decision of a fixed window of the given length and limit. */
  function Decide(w: Window, now: Time, length: Time, limit: nat): (Window, bool)
  {
    var c := Current(w, now, length);
    if c.count >= limit then (c, false) else (c.(count := c.count + 1), true)
  }

  // ---- how much any interval lets through ----

  predicate Sorted(ts: seq<Time>, from: Time)
  {
    ts != [] ==> from <= ts[0] && Sorted(ts[1..], ts[0])
  }

  /** How many of the calls at these times are let through within [a, a + length). */
  function Passed(w: Window, ts: seq<Time>, a: Time, length: Time, limit: nat): nat
    decreases |ts|
  {
    if ts == [] then 0
    else
      var (x, ok) := Decide(w, ts[0], length, limit);
      (if ok && a <= ts[0] < a + length then 1 else 0) + Passed(x, ts[1..], a, length, limit)
  }

  /** What is known of the calls already counted in [a, a + length) from where
      the present window began. */
  predicate Tallied(w: Window, a: Time, length: Time, limit: nat, n: nat)
  {
    w.count <= limit &&
    match w.start
    case None => n == 0
    case Some(s) =>
      if s <= a - length then n == 0
      else if s < a then n < w.count
      else if s < a + length then 0 < w.count && n < limit + w.count
      else n < 2 * limit
  }

  lemma {:induction false} PassedBound(w: Window, ts: seq<Time>, from: Time, a: Time, length: Time, limit: nat, n: nat)
    requires 0 < length && 0 < limit && Sorted(ts, from) && (w.start.Some? ==> w.start.value <= from)
    requires Tallied(w, a, length, limit, n)
    ensures n + Passed(w, ts, a, length, limit) < 2 * limit
    decreases |ts|
  {
    if ts != [] {
      var (x, ok) := Decide(w, ts[0], length, limit);
      PassedBound(x, ts[1..], ts[0], a, length, limit, n + if ok && a <= ts[0] < a + length then 1 else 0);
    }
  }

  /** An interval as long as a window lets through less than two limits: fewer
      than 120 messages a second, fewer than 20 room creations a minute. */
  lemma IntervalBound(ts: seq<Time>, from: Time, a: Time, length: Time, limit: nat)
    requires 0 < length && 0 < limit && Sorted(ts, from)
    ensures Passed(Window(None, 0), ts, a, length, limit) < 2 * limit
  {
    PassedBound(Window(None, 0), ts, from, a, length, limit, 0);
  }

  /** The bound is reached: all but the first call of one window at its last
      moment, and a full window right after it. */
  lemma BoundIsTight(length: Time, limit: nat)
    requires 1 < length && 0 < limit
    ensures exists ts :: Sorted(ts, 0) && Passed(Window(None, 0), ts, 1, length, limit) == 2 * limit - 1
  {
    var late, next := Times(length - 1, limit - 1), Times(length, limit);
    var ts := [0] + (late + next);
    assert ts[1..] == late + next;
    BurstPasses(Window(Some(0), 1), limit - 1, length - 1, next, 1, length, limit);
    OpenPasses(Window(Some(0), limit), limit, length, 1, length, limit);
    TimesSorted(length, limit, length - 1);
    BurstSorted(0, limit - 1, length - 1, next);
    assert Sorted(ts, 0) && Passed(Window(None, 0), ts, 1, length, limit) == 2 * limit - 1;
  }

  function Times(t: Time, n: nat): seq<Time> { if n == 0 then [] else [t] + Times(t, n - 1) }

  lemma {:induction false} TimesSorted(t: Time, n: nat, from: Time)
    requires from <= t
    ensures Sorted(Times(t, n), from)
    decreases n
  {
    if n > 0 {
      assert Times(t, n)[1..] == Times(t, n - 1);
      TimesSorted(t, n - 1, t);
    }
  }

  lemma {:induction false} BurstSorted(from: Time, n: nat, t: Time, rest: seq<Time>)
    requires from <= t && Sorted(rest, t)
    ensures Sorted(Times(t, n) + rest, from)
    decreases n
  {
    if n == 0 {
      assert Times(t, n) + rest == rest;
      SortedEarlier(rest, t, from);
    } else {
      BurstSorted(t, n - 1, t, rest);
      assert (Times(t, n) + rest)[1..] == Times(t, n - 1) + rest;
    }
  }

  lemma SortedEarlier(ts: seq<Time>, late: Time, early: Time)
    requires Sorted(ts, late) && early <= late
    ensures Sorted(ts, early)
  {
  }

  /** A burst inside an open window with room for it passes whole. */
  lemma {:induction false} BurstPasses(w: Window, n: nat, t: Time, rest: seq<Time>, a: Time, length: Time, limit: nat)
    requires w.start.Some? && 0 <= t - w.start.value < length && w.count + n <= limit && a <= t < a + length
    ensures Passed(w, Times(t, n) + rest, a, length, limit) == n + Passed(w.(count := w.count + n), rest, a, length, limit)
    decreases n
  {
    if n == 0 {
      assert Times(t, n) + rest == rest;
    } else {
      assert (Times(t, n) + rest)[1..] == Times(t, n - 1) + rest;
      BurstPasses(w.(count := w.count + 1), n - 1, t, rest, a, length, limit);
    }
  }

  /** A burst that opens a new window passes up to the limit. */
  lemma OpenPasses(w: Window, n: nat, t: Time, a: Time, length: Time, limit: nat)
    requires w.start.Some? && t - w.start.value >= length > 0 && 0 < n <= limit && a <= t < a + length
    ensures Passed(w, Times(t, n), a, length, limit) == n
  {
    assert Times(t, n)[1..] == Times(t, n - 1);
    BurstPasses(Window(Some(t), 1), n - 1, t, [], a, length, limit);
    assert Times(t, n - 1) + [] == Times(t, n - 1);
  }

  // ---- messages of one connection ----

  datatype Meter = Meter(window: Window, notified: bool)

  datatype Outcome = Accepted | Noticed | Dropped

  /** `allowMessage` followed, on refusal, by `shouldNotifyRateLimit`. */
  function Receive(m: Meter, now: Time): (Meter, Outcome)
  {
    var (w, ok) := Decide(m.window, now, MESSAGE_WINDOW, MAX_MESSAGES);
    if ok then (Meter(w, false), Accepted)
    else if m.notified then (Meter(w, true), Dropped)
    else (Meter(w, true), Noticed)
  }

  function Received(m: Meter, ts: seq<Time>): Meter
    decreases |ts|
  {
    if ts == [] then m else Received(Receive(m, ts[0]).0, ts[1..])
  }

  function Last(ts: seq<Time>, from: Time): Time { if ts == [] then from else Last(ts[1..], ts[0]) }

  /** The window that opened at s has had its notice, or is over. */
  predicate Settled(m: Meter, s: Time)
  {
    m.window.start.Some? &&
    ((m.window.start.value == s && m.notified && m.window.count >= MAX_MESSAGES) || m.window.start.value >= s + MESSAGE_WINDOW)
  }

  lemma {:induction false} StaysSettled(m: Meter, ts: seq<Time>, from: Time, s: Time)
    requires Sorted(ts, from) && Settled(m, s) && m.window.start.value <= from
    ensures Settled(Received(m, ts), s) && Received(m, ts).window.start.value <= Last(ts, from)
    decreases |ts|
  {
    if ts != [] { StaysSettled(Receive(m, ts[0]).0, ts[1..], ts[0], s); }
  }

  /** Each window sends at most one notice: a later notice belongs to a window
      that opened at least a whole length later. */
  lemma OneNoticePerWindow(m: Meter, t: Time, ts: seq<Time>, t': Time)
    requires m.window.start.Some? ==> m.window.start.value <= t
    requires Receive(m, t).1.Noticed? && Sorted(ts, t) && Last(ts, t) <= t'
    requires Receive(Received(Receive(m, t).0, ts), t').1.Noticed?
    ensures var s := Receive(m, t).0.window.start; var s' := Receive(Received(Receive(m, t).0, ts), t').0.window.start;
            s.Some? && s'.Some? && s'.value >= s.value + MESSAGE_WINDOW
  {
    var x := Receive(m, t).0;
    StaysSettled(x, ts, t, x.window.start.value);
  }

  function Outcomes(m: Meter, ts: seq<Time>): seq<Outcome>
    decreases |ts|
  {
    if ts == [] then [] else [Receive(m, ts[0]).1] + Outcomes(Receive(m, ts[0]).0, ts[1..])
  }

  /** A message is let through exactly if its window has had fewer than 60. */
  lemma PassesIffRoom(m: Meter, now: Time)
    ensures Receive(m, now).1.Accepted? <==>
            m.window.start.None? || now - m.window.start.value >= 1_000_000_000 || m.window.count < 60
    ensures Receive(m, now).1.Accepted? ==> !Receive(m, now).0.notified
  {
  }

  /** Whoever is refused hears of it: of the messages refused in a row the first is
      answered with a notice, and only the first. */
  lemma {:induction false} FirstRefusalIsNoticed(m: Meter, ts: seq<Time>)
    requires forall o :: o in Outcomes(m, ts) ==> !o.Accepted?
    ensures |Outcomes(m, ts)| == |ts|
    ensures forall i :: 0 <= i < |ts| ==> Outcomes(m, ts)[i] == if i == 0 && !m.notified then Noticed else Dropped
    decreases |ts|
  {
    if ts != [] {
      var x := Receive(m, ts[0]).0;
      var rest := Outcomes(x, ts[1..]);
      assert Outcomes(m, ts) == [Receive(m, ts[0]).1] + rest;
      assert Receive(m, ts[0]).1 in Outcomes(m, ts) && forall o :: o in rest ==> o in Outcomes(m, ts);
      FirstRefusalIsNoticed(x, ts[1..]);
    }
  }

  /** The rate fields of a connection. */
  class Limiter {
    var start: Option<Time>
    var count: nat
    var notified: bool

    constructor ()
      ensures State() == Meter(Window(None, 0), false)
    {
      start, count, notified := None, 0, false;
    }

    function State(): Meter
      reads this
    {
      Meter(Window(start, count), notified)
    }

    method AllowMessage(now: Time) returns (ok: bool)
      modifies this
      ensures ok == Decide(old(State()).window, now, MESSAGE_WINDOW, MAX_MESSAGES).1
      ensures State().window == Decide(old(State()).window, now, MESSAGE_WINDOW, MAX_MESSAGES).0
      ensures notified == (old(notified) && !ok)
    {
      if start.None? || now - start.value >= MESSAGE_WINDOW {
        start := Some(now);
        count := 0;
      }
      if count >= MAX_MESSAGES { return false; }
      count := count + 1;
      notified := false;
      return true;
    }

    method ShouldNotify() returns (yes: bool)
      modifies this
      ensures yes == !old(notified) && notified && State().window == old(State()).window
    {
      if notified { return false; }
      notified := true;
      return true;
    }

    /** The head of the read loop for one incoming message. */
    method Admit(now: Time) returns (o: Outcome)
      modifies this
      ensures (State(), o) == Receive(old(State()), now)
    {
      var ok := AllowMessage(now);
      if ok { return Accepted; }
      var notify := ShouldNotify();
      return if notify then Noticed else Dropped;
    }
  }

  // ---- room creations per source ----

  type Ledger = map<Str, Window>

  function Of(m: Ledger, source: Str): Window { if source in m then m[source] else Window(None, 0) }

  predicate Stale(w: Window, now: Time) { w.start.Some? && now - w.start.value >= CREATE_WINDOW }

  function Purged(m: Ledger, now: Time): Ledger { map k | k in m && !Stale(m[k], now) :: m[k] }

  predicate Fresh(m: Ledger, source: Str, now: Time) { source !in m || Stale(m[source], now) }

  /** `allowRoomCreate`: opening a window also purges every stale one. */
  function Create(m: Ledger, source: Str, now: Time): (Ledger, bool)
  {
    var p := if Fresh(m, source, now) then Purged(m, now) else m;
    var (w, ok) := Decide(Of(m, source), now, CREATE_WINDOW, MAX_CREATES);
    (p[source := w], ok)
  }

  /** A creation is let through exactly if its source's minute has had fewer than ten. */
  lemma CreatesIffRoom(m: Ledger, source: Str, now: Time)
    ensures Create(m, source, now).1 <==>
            source !in m || m[source].start.None? || now - m[source].start.value >= 60_000_000_000 || m[source].count < 10
  {
  }

  /** The same without purging. */
  function Hoard(m: Ledger, source: Str, now: Time): (Ledger, bool)
  {
    var (w, ok) := Decide(Of(m, source), now, CREATE_WINDOW, MAX_CREATES);
    (m[source := w], ok)
  }

  /** p is h without some windows that are stale at `now`. */
  ghost predicate Lean(p: Ledger, h: Ledger, now: Time)
  {
    && (forall k :: k in p ==> k in h && p[k] == h[k] && h[k].start.Some?)
    && (forall k :: k in h && k !in p ==> Stale(h[k], now))
  }

  lemma LeanStep(p: Ledger, h: Ledger, last: Time, source: Str, now: Time)
    requires Lean(p, h, last) && last <= now
    ensures Create(p, source, now).1 == Hoard(h, source, now).1
    ensures Lean(Create(p, source, now).0, Hoard(h, source, now).0, now)
  {
  }

  datatype Call = Call(source: Str, at: Time)

  predicate Timely(calls: seq<Call>, from: Time)
  {
    calls != [] ==> from <= calls[0].at && Timely(calls[1..], calls[0].at)
  }

  function Verdicts(m: Ledger, calls: seq<Call>): seq<bool>
    decreases |calls|
  {
    if calls == [] then [] else
      var (x, ok) := Create(m, calls[0].source, calls[0].at);
      [ok] + Verdicts(x, calls[1..])
  }

  /** The verdicts of one window per source, never purged. */
  function Reference(m: Ledger, calls: seq<Call>): seq<bool>
    decreases |calls|
  {
    if calls == [] then [] else
      var (x, ok) := Hoard(m, calls[0].source, calls[0].at);
      [ok] + Reference(x, calls[1..])
  }

  /** Purging stale windows never changes a decision. */
  lemma {:induction false} PurgeIsInvisible(p: Ledger, h: Ledger, calls: seq<Call>, last: Time)
    requires Lean(p, h, last) && Timely(calls, last)
    ensures Verdicts(p, calls) == Reference(h, calls)
    decreases |calls|
  {
    hide Create, Hoard, Lean;
    if calls != [] {
      LeanStep(p, h, last, calls[0].source, calls[0].at);
      PurgeIsInvisible(Create(p, calls[0].source, calls[0].at).0, Hoard(h, calls[0].source, calls[0].at).0, calls[1..],
                       calls[0].at);
    }
  }

  /** The call is let through, is of the source and falls into [a, a + one minute). */
  predicate Counts(call: Call, ok: bool, source: Str, a: Time)
  {
    ok && call.source == source && a <= call.at < a + CREATE_WINDOW
  }

  /** How many creations of one source are let through within [a, a + one minute). */
  function Created(m: Ledger, calls: seq<Call>, source: Str, a: Time): nat
    decreases |calls|
  {
    if calls == [] then 0 else
      var (x, ok) := Create(m, calls[0].source, calls[0].at);
      (if Counts(calls[0], ok, source, a) then 1 else 0) + Created(x, calls[1..], source, a)
  }

  /** How many an unpurged ledger would let through. */
  function Hoarded(m: Ledger, calls: seq<Call>, source: Str, a: Time): nat
    decreases |calls|
  {
    if calls == [] then 0 else
      var (x, ok) := Hoard(m, calls[0].source, calls[0].at);
      (if Counts(calls[0], ok, source, a) then 1 else 0) + Hoarded(x, calls[1..], source, a)
  }

  lemma {:induction false} PurgeCountsSame(p: Ledger, h: Ledger, calls: seq<Call>, source: Str, a: Time, last: Time)
    requires Lean(p, h, last) && Timely(calls, last)
    ensures Created(p, calls, source, a) == Hoarded(h, calls, source, a)
    decreases |calls|
  {
    hide Create, Hoard, Lean;
    if calls != [] {
      LeanStep(p, h, last, calls[0].source, calls[0].at);
      PurgeCountsSame(Create(p, calls[0].source, calls[0].at).0, Hoard(h, calls[0].source, calls[0].at).0, calls[1..],
                      source, a, calls[0].at);
    }
  }

  function TimesOf(calls: seq<Call>, source: Str): seq<Time>
  {
    if calls == [] then [] else (if calls[0].source == source then [calls[0].at] else []) + TimesOf(calls[1..], source)
  }

  /** Sources do not disturb each other: each sees its own fixed window. */
  lemma {:induction false} OwnWindow(m: Ledger, calls: seq<Call>, source: Str, a: Time, from: Time)
    requires Timely(calls, from)
    ensures Hoarded(m, calls, source, a) == Passed(Of(m, source), TimesOf(calls, source), a, CREATE_WINDOW, MAX_CREATES)
    ensures Sorted(TimesOf(calls, source), from)
    decreases |calls|
  {
    if calls != [] {
      var x := Hoard(m, calls[0].source, calls[0].at).0;
      OwnWindow(x, calls[1..], source, a, calls[0].at);
      var rest := TimesOf(calls[1..], source);
      if calls[0].source == source {
        assert TimesOf(calls, source)[1..] == rest;
      } else {
        assert TimesOf(calls, source) == rest;
        SortedEarlier(rest, calls[0].at, from);
      }
    }
  }

  /** Fewer than 20 rooms per source in any minute, whatever was purged meanwhile. */
  lemma CreationsBounded(calls: seq<Call>, source: Str, a: Time, from: Time)
    requires Timely(calls, from)
    ensures Created(map[], calls, source, a) < 2 * MAX_CREATES
  {
    PurgeCountsSame(map[], map[], calls, source, a, from);
    OwnWindow(map[], calls, source, a, from);
    IntervalBound(TimesOf(calls, source), from, a, CREATE_WINDOW, MAX_CREATES);
  }

  class Sources {
    var windows: Ledger

    constructor ()
      ensures windows == map[]
    {
      windows := map[];
    }

    method AllowRoomCreate(source: Str, now: Time) returns (ok: bool)
      requires forall k :: k in windows ==> windows[k].start.Some?
      modifies this
      ensures (windows, ok) == Create(old(windows), source, now)
      ensures forall k :: k in windows ==> windows[k].start.Some?
    {
      var w: Window;
      if source !in windows || now - windows[source].start.value >= CREATE_WINDOW {
        Purge(now);
        w := Window(Some(now), 0);
        windows := windows[source := w];
      } else {
        w := windows[source];
      }
      assert windows == windows[source := w];
      if w.count >= MAX_CREATES { return false; }
      windows := windows[source := w.(count := w.count + 1)];
      ghost var base := if Fresh(old(windows), source, now) then Purged(old(windows), now) else old(windows);
      assert windows == base[source := w.(count := w.count + 1)];
      return true;
    }

    /** Deletes every stale window, in any order. */
    method Purge(now: Time)
      requires forall k :: k in windows ==> windows[k].start.Some?
      modifies this
      ensures windows == Purged(old(windows), now)
    {
      var todo := windows.Keys;
      while todo != {}
        invariant todo <= old(windows).Keys
        invariant windows == map k | k in old(windows) && (k in todo || !Stale(old(windows)[k], now)) :: old(windows)[k]
      {
        var k :| k in todo;
        if now - windows[k].start.value >= CREATE_WINDOW { windows := windows - {k}; }
        todo := todo - {k};
      }
    }
  }
}
