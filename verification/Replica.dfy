/**
 What a listener knows: the snapshot it joined with, folded with the broadcasts
 it received since. The fold agrees with the server's state from then on.
 */
module Replica {
  import opened Base
  import opened Text
  import opened Tracks
  import opened Playback

  /** join_approved, reconnected and sync_state carry a snapshot; everything else
      about playback is a sync_playback message. */
  datatype Msg = Snapshot(p: Play) | Update(m: Sync)

  /** A listener's copy of the room: where the timeline stood, and when. */
  datatype View = View(track: Option<Track>, playing: bool, position: int, anchor: int, queue: seq<Track>, revision: nat)

  function Revision(m: Msg): nat { match m case Snapshot(p) => p.revision case Update(u) => u.revision }

  function Seen(p: Play): View { View(p.track, p.playing, p.position, p.lastUpdate, p.queue, p.revision) }

  /** How a listener applies one message. */
  function Fold(v: Option<View>, m: Msg): Option<View>
  {
    match m
    case Snapshot(p) => Some(Seen(p))
    case Update(u) =>
      if v.None? then None
      else
        var x := v.value.(revision := u.revision);
        match u.action
        case PlayAct => Some(x.(playing := true, position := u.position, anchor := u.serverTime))
        case Pause => Some(x.(playing := false, position := u.position, anchor := u.serverTime))
        case Seek => Some(x.(position := u.position, anchor := u.serverTime))
        case ChangeTrack =>
          Some(x.(track := u.info, playing := false, position := 0, anchor := u.serverTime, queue := u.queue))
        case UpdateTrack => Some(x.(track := u.info, position := u.position, anchor := u.serverTime))
        case QueueAdd => Some(x.(queue := u.queue))
        case QueueRemove => Some(x.(queue := u.queue))
        case QueueClear => Some(x.(queue := u.queue))
        case SyncQueue => Some(x.(queue := u.queue))
        case _ => Some(x)
  }

  function FoldAll(ms: seq<Msg>): Option<View>
  {
    if ms == [] then None else Fold(FoldAll(ms[..|ms| - 1]), ms[|ms| - 1])
  }

  lemma FoldMore(ms: seq<Msg>, m: Msg)
    ensures FoldAll(ms + [m]) == Fold(FoldAll(ms), m)
  {
    assert (ms + [m])[..|ms|] == ms;
  }

  /** The listener's live position. */
  function Shown(v: View, now: int): int
  {
    Clamp(if v.playing then v.position + Max(now - v.anchor, 0) else v.position)
  }

  /** The listener has the server's track, queue, play flag and revision, and the
      same live position at every later time. */
  ghost predicate Agrees(v: Option<View>, p: Play, t: int)
  {
    && v.Some? && v.value.track == p.track && v.value.playing == p.playing && v.value.queue == p.queue
    && v.value.revision == p.revision
    && forall now :: t <= now && Clock(now) ==> Shown(v.value, now) == Live(p, now)
  }

  /** `cloneLiveRoomState` and `syncSnapshotLocked`. */
  function SnapshotOf(p: Play, now: int): Msg { Snapshot(p.(position := Live(p, now), lastUpdate := now)) }

  lemma SnapshotAgrees(v: Option<View>, p: Play, t: int, now: int)
    requires PlayInv(p, t) && t <= now && Clock(now)
    ensures Agrees(Fold(v, SnapshotOf(p, now)), p, now)
  {
    hide Live, QueueOk, Stored;
    LiveInRange(p, t, now);
    forall later | now <= later && Clock(later) ensures Shown(Seen(SnapshotOf(p, now).p), later) == Live(p, later) {
      LiveInRange(p, t, later);
    }
  }

  /** Agreement stays while only time passes. */
  lemma AgreesLater(v: Option<View>, p: Play, t: int, later: int)
    requires Agrees(v, p, t) && t <= later
    ensures Agrees(v, p, later)
  {
  }

  /** An anchored state shows what its anchor says. */
  lemma AnchorShown(v: View, p: Play, now: int, later: int)
    requires v.playing == p.playing && v.position == p.position && v.anchor == p.lastUpdate == now
    requires 0 <= p.position <= MAX_DURATION && 0 < now <= later && Clock(later)
    ensures Shown(v, later) == Live(p, later)
  {
    LiveExact(p, later);
  }

  /** play, pause, seek and change_track anchor listener and server alike. */
  lemma AnchoredAgrees(v: Option<View>, p: Play, m: Request, now: int, rtt: int)
    requires v.Some? && v.value.track == p.track && v.value.playing == p.playing && v.value.queue == p.queue
    requires m.action.PlayAct? || m.action.Pause? || m.action.Seek? || m.action.ChangeTrack?
    requires Clock(now) && Act(p, m, now, rtt).Accept?
    ensures var a := Act(p, m, now, rtt); var (q, o) := Publish(a.play, a.req, now);
            Agrees(Fold(v, Update(o.msg)), q, now)
  {
    hide CleanTrack, CleanQueue, Compensate, Live, WireSize, Advance;
    var a := Act(p, m, now, rtt);
    var (q, o) := Publish(a.play, a.req, now);
    var w := Fold(v, Update(o.msg)).value;
    forall later | now <= later && Clock(later) ensures Shown(w, later) == Live(q, later) {
      AnchorShown(w, q, now, later);
    }
  }

  /** update_track re-anchors the listener only. */
  lemma UpdateAgrees(v: Option<View>, p: Play, t: int, m: Request, now: int, rtt: int)
    requires PlayInv(p, t) && t <= now && Clock(now) && Agrees(v, p, t)
    requires m.action.UpdateTrack? && Act(p, m, now, rtt).Accept?
    ensures var a := Act(p, m, now, rtt); var (q, o) := Publish(a.play, a.req, now);
            Agrees(Fold(v, Update(o.msg)), q, now)
  {
    hide CleanTrack, Live, QueueOk, Stored;
    var a := Act(p, m, now, rtt);
    var (q, o) := Publish(a.play, a.req, now);
    var w := Fold(v, Update(o.msg)).value;
    SameTimeline(p, a.play, now);
    LiveInRange(p, t, now);
    forall later | now <= later && Clock(later) ensures Shown(w, later) == Live(q, later) {
      SameTimeline(p, q, later);
      LiveInRange(p, t, later);
    }
  }

  /** Queue actions and volume leave the timeline alone. */
  lemma QueueAgrees(v: Option<View>, p: Play, t: int, m: Request, now: int, rtt: int)
    requires t <= now && Agrees(v, p, t)
    requires (QueueAction(m.action) && !m.action.ChangeTrack?) || m.action.SetVolume?
    requires Act(p, m, now, rtt).Accept?
    ensures var a := Act(p, m, now, rtt); var (q, o) := Publish(a.play, a.req, now);
            Agrees(Fold(v, Update(o.msg)), q, now)
  {
    hide CleanTrack, CleanQueue, Live, WireSize, Queued, Without;
    var a := Act(p, m, now, rtt);
    var (q, o) := Publish(a.play, a.req, now);
    forall later | now <= later && Clock(later) ensures Live(q, later) == Live(p, later) {
      SameTimeline(p, q, later);
    }
  }

  /** Every published action keeps listener and server together. */
  lemma BroadcastAgrees(v: Option<View>, p: Play, e: Event, t: int, now: int)
    requires PlayInv(p, t) && t <= now && Clock(now) && Agrees(v, p, t) && Apply(p, e, now).1.Applied?
    ensures Agrees(Fold(v, Update(Apply(p, e, now).1.msg)), Apply(p, e, now).0, now)
  {
    hide PlayInv, Agrees, Act, Publish;
    match e
    case Host(m, rtt) =>
      var p' := if m.hostSeq > 0 then p.(lastHostSeq := m.hostSeq) else p;
      SequenceAgrees(v, p, p', t);
      SkipIsSilent(p', m, now, rtt);
      match m.action {
        case PlayAct => AgreesFacts(v, p', t); AnchoredAgrees(v, p', m, now, rtt);
        case Pause => AgreesFacts(v, p', t); AnchoredAgrees(v, p', m, now, rtt);
        case Seek => AgreesFacts(v, p', t); AnchoredAgrees(v, p', m, now, rtt);
        case ChangeTrack => AgreesFacts(v, p', t); AnchoredAgrees(v, p', m, now, rtt);
        case UpdateTrack => UpdateAgrees(v, p', t, m, now, rtt);
        case SkipNext =>
        case SkipPrev =>
        case Unknown =>
        case _ => QueueAgrees(v, p', t, m, now, rtt);
      }
    case Suggest(track) => SuggestionAgrees(v, p, track, t, now);
  }

  lemma SkipIsSilent(p: Play, m: Request, now: int, rtt: int)
    ensures m.action.SkipNext? || m.action.SkipPrev? ==> Act(p, m, now, rtt).Skip?
    ensures m.action.Unknown? ==> Act(p, m, now, rtt).Reject?
  {
  }

  lemma AgreesFacts(v: Option<View>, p: Play, t: int)
    requires Agrees(v, p, t)
    ensures v.Some? && v.value.track == p.track && v.value.playing == p.playing && v.value.queue == p.queue
  {
  }

  lemma SequenceAgrees(v: Option<View>, p: Play, q: Play, t: int)
    requires q == p.(lastHostSeq := q.lastHostSeq) && Agrees(v, p, t) && PlayInv(p, t)
    ensures Agrees(v, q, t) && PlayInv(q, t)
  {
    hide Live, QueueOk, Stored;
    forall later | t <= later && Clock(later) ensures Live(q, later) == Live(p, later) { SameTimeline(p, q, later); }
  }

  lemma SuggestionAgrees(v: Option<View>, p: Play, track: Track, t: int, now: int)
    requires t <= now && Agrees(v, p, t) && Suggested(p, track, now).1.Applied?
    ensures Agrees(Fold(v, Update(Suggested(p, track, now).1.msg)), Suggested(p, track, now).0, now)
  {
    hide Live, WireSize, Queued;
    var q := Suggested(p, track, now).0;
    forall later | now <= later && Clock(later) ensures Live(q, later) == Live(p, later) { SameTimeline(p, q, later); }
  }

  /** An ignored or refused event leaves everything a listener follows. */
  lemma SilenceAgrees(v: Option<View>, p: Play, e: Event, t: int, now: int)
    requires t <= now && Agrees(v, p, t) && !Apply(p, e, now).1.Applied?
    ensures Agrees(v, Apply(p, e, now).0, now)
  {
    hide Live, Act, Publish, Suggested;
    var q := Apply(p, e, now).0;
    SilentChange(p, e, now);
    forall later | now <= later && Clock(later) ensures Live(q, later) == Live(p, later) { SameTimeline(p, q, later); }
  }

  lemma SilentChange(p: Play, e: Event, now: int)
    requires !Apply(p, e, now).1.Applied?
    ensures var q := Apply(p, e, now).0;
            && q.track == p.track && q.playing == p.playing && q.queue == p.queue && q.revision == p.revision
            && q.position == p.position && q.lastUpdate == p.lastUpdate
  {
    hide CleanTrack, CleanQueue, Live, WireSize, Queued;
    match e
    case Host(m, rtt) => if Handle(p, m, now, rtt).1.Failed? { RejectedEffect(p, m, now, rtt); }
    case Suggest(_) =>
  }

  // ---- the reply to buffer_ready ----

  /** A seek and a play or pause that put one listener on the timeline. */
  function Nudge(p: Play, now: int, a: Action): Msg
    requires p.track.Some?
  {
    Update(Sync(a, p.track.value.id, Live(p, now), None, [], [], Finite(0.0), now, p.revision))
  }

  function Nudges(p: Play, now: int): seq<Msg>
    requires p.track.Some?
  {
    [Nudge(p, now, Seek), Nudge(p, now, if p.playing then PlayAct else Pause)]
  }

  /** A nudge puts whoever has track, queue and play flag on the timeline. */
  lemma NudgeSets(v: Option<View>, p: Play, t: int, now: int, a: Action)
    requires PlayInv(p, t) && t <= now && Clock(now) && p.track.Some?
    requires v.Some? && v.value.track == p.track && v.value.playing == p.playing && v.value.queue == p.queue
    requires a == Seek || a == (if p.playing then PlayAct else Pause)
    ensures Agrees(Fold(v, Nudge(p, now, a)), p, now)
  {
    hide Live, QueueOk, Stored;
    LiveInRange(p, t, now);
    var w := Fold(v, Nudge(p, now, a)).value;
    forall later | now <= later && Clock(later) ensures Shown(w, later) == Live(p, later) {
      LiveInRange(p, t, later);
    }
  }

  lemma NudgeAgrees(v: Option<View>, p: Play, t: int, now: int, a: Action)
    requires PlayInv(p, t) && t <= now && Clock(now) && Agrees(v, p, t) && p.track.Some?
    requires a == Seek || a == (if p.playing then PlayAct else Pause)
    ensures Agrees(Fold(v, Nudge(p, now, a)), p, now)
  {
    hide Agrees, PlayInv, Nudge, Fold;
    AgreesFacts(v, p, t);
    NudgeSets(v, p, t, now, a);
  }

  // ---- messages that are heard twice ----

  /** Whoever already has the state keeps it when the message comes, at t0 or later. */
  ghost predicate Harmless(m: Msg, p: Play, t0: int)
  {
    forall v, t :: t0 <= t && Agrees(v, p, t) ==> Agrees(Fold(v, m), p, t)
  }

  lemma HarmlessLater(m: Msg, p: Play, t: int, later: int)
    requires Harmless(m, p, t) && t <= later
    ensures Harmless(m, p, later)
  {
    hide Agrees, Fold;
  }

  lemma SnapshotHarmless(p: Play, t: int, now: int)
    requires PlayInv(p, t) && t <= now && Clock(now)
    ensures Harmless(SnapshotOf(p, now), p, now)
  {
    hide Agrees, PlayInv, SnapshotOf;
    forall v, t' | now <= t' && Agrees(v, p, t') ensures Agrees(Fold(v, SnapshotOf(p, now)), p, t') {
      SnapshotAgrees(v, p, t, now);
      AgreesLater(Fold(v, SnapshotOf(p, now)), p, now, t');
    }
  }

  lemma NudgeHarmless(p: Play, t: int, now: int, a: Action)
    requires PlayInv(p, t) && t <= now && Clock(now) && p.track.Some?
             && (a == Seek || a == if p.playing then PlayAct else Pause)
    ensures Harmless(Nudge(p, now, a), p, now)
  {
    hide Agrees, PlayInv, Nudge;
    forall v, t' | now <= t' && Agrees(v, p, t') ensures Agrees(Fold(v, Nudge(p, now, a)), p, t') {
      AgreesFacts(v, p, t');
      NudgeSets(v, p, t, now, a);
      AgreesLater(Fold(v, Nudge(p, now, a)), p, now, t');
    }
  }

  /** An event's own message finds its state in place. */
  lemma EchoAgrees(v: Option<View>, p: Play, m: Request, now: int, rtt: int, t: int)
    requires Clock(now) && now <= t && Act(p, m, now, rtt).Accept?
    requires var a := Act(p, m, now, rtt); var (q, o) := Publish(a.play, a.req, now); PlayInv(q, now) && Agrees(v, q, t)
    ensures var a := Act(p, m, now, rtt); var (q, o) := Publish(a.play, a.req, now);
            Agrees(Fold(v, Update(o.msg)), q, t)
  {
    hide CleanTrack, CleanQueue, Compensate, Live, WireSize, Advance, Queued, Without, QueueOk, Stored;
    var a := Act(p, m, now, rtt);
    var (q, o) := Publish(a.play, a.req, now);
    var w := Fold(v, Update(o.msg)).value;
    if m.action.PlayAct? || m.action.Pause? || m.action.Seek? || m.action.ChangeTrack? {
      forall later | t <= later && Clock(later) ensures Shown(w, later) == Live(q, later) {
        AnchorShown(w, q, now, later);
      }
    } else if m.action.UpdateTrack? {
      UpdateEcho(w, p, q, m, now, rtt);
    }
  }

  lemma UpdateEcho(w: View, p: Play, q: Play, m: Request, now: int, rtt: int)
    requires Clock(now) && m.action.UpdateTrack? && Act(p, m, now, rtt).Accept? && PlayInv(q, now)
    requires var a := Act(p, m, now, rtt);
             q == Publish(a.play, a.req, now).0 && w.position == a.req.position && w.anchor == now
             && w.playing == q.playing
    ensures forall later :: now <= later && Clock(later) ==> Shown(w, later) == Live(q, later)
  {
    hide CleanTrack, Live, QueueOk, Stored;
    var a := Act(p, m, now, rtt);
    SameTimeline(a.play, q, now);
    LiveInRange(q, now, now);
    forall later | now <= later && Clock(later) ensures Shown(w, later) == Live(q, later) {
      LiveInRange(q, now, later);
    }
  }

  lemma SuggestionEcho(v: Option<View>, p: Play, track: Track, now: int, t: int)
    requires Suggested(p, track, now).1.Applied? && Agrees(v, Suggested(p, track, now).0, t)
    ensures Agrees(Fold(v, Update(Suggested(p, track, now).1.msg)), Suggested(p, track, now).0, t)
  {
    hide WireSize, Queued, Live;
  }

  lemma BroadcastHarmless(p: Play, e: Event, now: int)
    requires Clock(now) && Apply(p, e, now).1.Applied? && PlayInv(Apply(p, e, now).0, now)
    ensures Harmless(Update(Apply(p, e, now).1.msg), Apply(p, e, now).0, now)
  {
    hide Agrees, PlayInv, Act, Publish, Suggested, Fold;
    var (q, o) := Apply(p, e, now);
    forall v, t | now <= t && Agrees(v, q, t) ensures Agrees(Fold(v, Update(o.msg)), q, t) {
      match e
      case Host(m, rtt) => EchoAgrees(v, if m.hostSeq > 0 then p.(lastHostSeq := m.hostSeq) else p, m, now, rtt, t);
      case Suggest(track) => SuggestionEcho(v, p, track, now, t);
    }
  }

  ghost predicate AllHarmless(ms: seq<Msg>, p: Play, t: int) { forall m :: m in ms ==> Harmless(m, p, t) }

  /** Repeating what is known changes nothing. */
  lemma {:induction false} HarmlessFold(m: Msg, ms: seq<Msg>, p: Play, t: int)
    requires Agrees(Fold(None, m), p, t) && AllHarmless(ms, p, t)
    ensures Agrees(FoldAll([m] + ms), p, t)
    decreases |ms|
  {
    hide Agrees, Fold;
    if ms == [] {
      assert [m] + ms == [] + [m];
      FoldMore([], m);
    } else {
      var n := |ms| - 1;
      assert forall x :: x in ms[..n] ==> x in ms;
      HarmlessFold(m, ms[..n], p, t);
      assert [m] + ms == ([m] + ms[..n]) + [ms[n]];
      FoldMore([m] + ms[..n], ms[n]);
      assert Harmless(ms[n], p, t);
    }
  }

  /** A snapshot makes everything before it irrelevant. */
  lemma {:induction false} ResetFold(before: seq<Msg>, m: Msg, ms: seq<Msg>)
    requires m.Snapshot?
    ensures FoldAll(before + [m] + ms) == FoldAll([m] + ms)
    decreases |ms|
  {
    if ms == [] {
      assert before + [m] + ms == before + [m] && [m] + ms == [] + [m];
      FoldMore(before, m);
      FoldMore([], m);
    } else {
      var n := |ms| - 1;
      ResetFold(before, m, ms[..n]);
      assert before + [m] + ms == (before + [m] + ms[..n]) + [ms[n]] && [m] + ms == ([m] + ms[..n]) + [ms[n]];
      FoldMore(before + [m] + ms[..n], ms[n]);
      FoldMore([m] + ms[..n], ms[n]);
    }
  }
}
