/**
 A room's playback state and the host's playback actions.
 Positions and clock readings are int64 milliseconds; the arithmetic is written
 with explicit wrap-around and compared with unbounded integers below.
 */
module Playback {
  import opened Base
  import opened Text
  import opened Tracks

  const MAX64 := 0x7FFF_FFFF_FFFF_FFFF
  const MIN64 := -0x8000_0000_0000_0000
  const TWO64 := 0x1_0000_0000_0000_0000
  const MAX_TRANSIT := 30_000

  predicate Int64(x: int) { MIN64 <= x <= MAX64 }

  /** The int64 value of an integer result. */
  function Wrap64(x: int): (r: int)
    ensures Int64(x) ==> r == x
  {
    (x - MIN64) % TWO64 + MIN64
  }

  /** Playback fields of RoomState plus Room.TrackRevision and Room.LastHostSequence. */
  datatype Play = Play(
    track: Option<Track>, playing: bool, position: int, lastUpdate: int, volume: real,
    queue: seq<Track>, revision: nat, title: Str, trackRevision: nat, lastHostSeq: nat)

  // ---- positions ----

  /** `clampPlaybackPosition`. */
  function Clamp(position: int): int { Min(Max(position, 0), MAX_DURATION) }

  /** `compensateActionTransit` on int64. */
  function Compensate(position: int, captured: int, now: int, rtt: int): int
  {
    var elapsed := if captured > 0 then Wrap64(now - captured)
                   else if rtt >= 0 then rtt / 2 else -((-rtt) / 2);
    if elapsed <= 0 || elapsed > MAX_TRANSIT then position
    else if position > MAX64 - elapsed then MAX64
    else Wrap64(position + elapsed)
  }

  /** `livePlaybackPosition` on int64. */
  function Live(p: Play, now: int): int
  {
    var position := Max(p.position, 0);
    var elapsed := Wrap64(now - p.lastUpdate);
    Min(if p.playing && p.lastUpdate > 0 && elapsed > 0 then Wrap64(position + elapsed) else position, MAX_DURATION)
  }

  /** The same over unbounded integers: time in transit, at most 30 seconds. */
  function Transit(captured: int, now: int, rtt: int): int
  {
    var elapsed := if captured > 0 then now - captured else rtt / 2;
    if 0 < elapsed <= MAX_TRANSIT then elapsed else 0
  }

  /** Where the host's timeline stands at `now`. */
  function Timeline(p: Play, now: int): int
  {
    Clamp(if p.playing && p.lastUpdate > 0 then Max(p.position, 0) + Max(now - p.lastUpdate, 0) else p.position)
  }

  /** The clamped, compensated position is exact for every int64 input. */
  lemma CompensateExact(position: int, captured: int, now: int, rtt: int)
    requires Int64(position) && Int64(captured) && 0 <= now <= MAX64 && 0 <= rtt <= MAX64
    ensures Clamp(Compensate(position, captured, now, rtt)) == Clamp(position + Transit(captured, now, rtt))
  {
  }

  /** The int64 projection equals the timeline exactly when the sum does not overflow. */
  lemma LiveExact(p: Play, now: int)
    requires Int64(p.position) && Int64(p.lastUpdate) && 0 <= now <= MAX64
    ensures Live(p, now) == Timeline(p, now) <==>
            !(p.playing && p.lastUpdate > 0 && Max(p.position, 0) + (now - p.lastUpdate) > MAX64)
  {
    if p.playing && p.lastUpdate > 0 && now > p.lastUpdate {
      var sum := Max(p.position, 0) + (now - p.lastUpdate);
      if sum > MAX64 {
        assert Wrap64(sum) == sum - TWO64;
      }
    }
  }

  /** Re-basing a snapshot at t0 and projecting it to t1 is projecting the
      original to t1; a playing state without an anchor is the one exception. */
  lemma RebaseComposes(p: Play, t0: int, t1: int)
    requires 0 <= p.position && 0 < t0 <= t1
    requires p.lastUpdate <= t0
    ensures Timeline(Rebased(p, t0), t1) == Timeline(p, t1) <==>
            (p.playing && p.lastUpdate <= 0 ==> t0 == t1 || p.position >= MAX_DURATION)
  {
  }

  /** `cloneLiveRoomState` and `syncSnapshotLocked`: the state anchored at `now`. */
  function Rebased(p: Play, now: int): Play
  {
    p.(position := Timeline(p, now), lastUpdate := now)
  }

  /** A clock reading leaving room for a day of playback before int64 ends. */
  predicate Clock(now: int) { 0 < now <= MAX64 - MAX_DURATION }

  /** The bounds a playback state is kept within, up to time `now`. */
  predicate PlayInv(p: Play, now: int)
  {
    && 0 <= p.position <= MAX_DURATION
    && 0 < p.lastUpdate <= now
    && QueueOk(p.queue)
    && (p.track.Some? ==> Stored(p.track.value))
    && (p.playing ==> p.track.Some?)
    && 0.0 <= p.volume <= 1.0
    && p.revision < TWO64
  }

  lemma InvLater(p: Play, t: int, now: int)
    requires PlayInv(p, t) && t <= now
    ensures PlayInv(p, now)
  {
    hide QueueOk, Stored;
  }

  lemma LiveInRange(p: Play, t: int, now: int)
    requires PlayInv(p, t) && t <= now && Clock(now)
    ensures Live(p, now) == Timeline(p, now) && 0 <= Live(p, now) <= MAX_DURATION
  {
    LiveExact(p, now);
  }

  /** A state with the same timeline shows the same position. */
  lemma SameTimeline(p: Play, q: Play, now: int)
    requires q.playing == p.playing && q.position == p.position && q.lastUpdate == p.lastUpdate
    ensures Live(q, now) == Live(p, now)
  {
  }

  // ---- host actions ----

  datatype Action = PlayAct | Pause | Seek | SkipNext | SkipPrev | ChangeTrack | QueueAdd | QueueRemove
                  | QueueClear | SyncQueue | UpdateTrack | SetVolume | Unknown

  /** A float64 volume: NaN and the infinities carry no value. */
  datatype Volume = NotFinite | Finite(v: real)

  datatype Request = Request(
    action: Action, trackId: Str, position: int, info: Option<Track>, insertNext: bool, queue: seq<Track>,
    title: Str, volume: Volume, captured: int, replaceQueue: bool, hostSeq: nat)

  datatype Error = StaleAction | NoTrack | InvalidPosition | StaleTrack | MissingTrackInfo | InvalidTrackInfo
                 | QueueTooLarge | QueueFull | DuplicateTrack | MissingTrackId | InvalidVolume | UnknownAction

  /** A sync_playback broadcast. */
  datatype Sync = Sync(action: Action, trackId: Str, position: int, info: Option<Track>, queue: seq<Track>, title: Str,
                       volume: Volume, serverTime: int, revision: nat)

  datatype Outcome = Applied(msg: Sync) | Ignored | Failed(error: Error)

  /** The action's effect before it is published; the request carries what is forwarded. */
  datatype Effect = Reject(play: Play, error: Error) | Skip | Accept(play: Play, req: Request)

  predicate QueueAction(a: Action)
  {
    a.ChangeTrack? || a.QueueAdd? || a.QueueRemove? || a.QueueClear? || a.SyncQueue?
  }

  /** A uint64 counter. */
  function Next64(r: nat): nat { (r + 1) % TWO64 }

  /** play, pause and seek: which position and play flag the room ends with. */
  function Transport(p: Play, m: Request, now: int, rtt: int): Effect
  {
    if m.action.PlayAct? && p.track.None? then Reject(p, NoTrack)
    else if m.position < 0 then Reject(p, InvalidPosition)
    else if p.track.Some? && m.trackId != [] && m.trackId != p.track.value.id then Reject(p, StaleTrack)
    else
      var id := if p.track.Some? then p.track.value.id else m.trackId;
      var moving := m.action.PlayAct? || (m.action.Seek? && p.playing);
      var position := Clamp(if moving then Compensate(m.position, m.captured, now, rtt) else m.position);
      var playing := if m.action.Seek? then p.playing else m.action.PlayAct?;
      Accept(p.(playing := playing, position := position, lastUpdate := now),
             m.(trackId := id, position := position))
  }

  function Change(p: Play, m: Request, now: int): Effect
  {
    if m.info.None? then Reject(p, MissingTrackInfo)
    else match CleanTrack(m.info.value)
      case None => Reject(p, InvalidTrackInfo)
      case Some(t) =>
        var replace := m.queue != [] || m.replaceQueue;
        var queue := if replace then CleanQueue(m.queue, MAX_QUEUE) else Advance(p.queue, t.id);
        var q := if replace then p.(title := m.title) else p;
        if WireSize(queue) > MAX_QUEUE_BYTES then Reject(q, QueueTooLarge)
        else Accept(q.(queue := queue, track := Some(t), position := 0, playing := false, lastUpdate := now),
                    m.(info := Some(t), trackId := t.id, position := 0))
  }

  predicate Queued(p: Play, id: Str)
  {
    (p.track.Some? && p.track.value.id == id) || HasTrack(p.queue, id)
  }

  function Add(p: Play, m: Request): Effect
  {
    if m.info.None? then Reject(p, MissingTrackInfo)
    else match CleanTrack(m.info.value)
      case None => Reject(p, InvalidTrackInfo)
      case Some(t) =>
        if |p.queue| >= MAX_QUEUE then Reject(p, QueueFull)
        else if Queued(p, t.id) then Reject(p, DuplicateTrack)
        else
          var queue := if m.insertNext then [t] + p.queue else p.queue + [t];
          if WireSize(queue) > MAX_QUEUE_BYTES then Reject(p, QueueTooLarge)
          else Accept(p.(queue := queue), m.(info := Some(t)))
  }

  function Update(p: Play, m: Request, now: int): Effect
  {
    if m.info.None? || CleanTrack(m.info.value).None? then Reject(p, InvalidTrackInfo)
    else
      var t := CleanTrack(m.info.value).value;
      if p.track.None? || p.track.value.id != t.id then Reject(p, StaleTrack)
      else
        var q := p.(track := Some(t));
        Accept(q, m.(info := Some(t), trackId := t.id, position := Live(q, now)))
  }

  function Act(p: Play, m: Request, now: int, rtt: int): Effect
  {
    match m.action
    case PlayAct => Transport(p, m, now, rtt)
    case Pause => Transport(p, m, now, rtt)
    case Seek => Transport(p, m, now, rtt)
    case ChangeTrack => Change(p, m, now)
    case SkipNext => Skip
    case SkipPrev => Skip
    case QueueAdd => Add(p, m)
    case QueueRemove =>
      if m.trackId == [] then Reject(p, MissingTrackId) else Accept(p.(queue := Without(p.queue, m.trackId)), m)
    case QueueClear => Accept(p.(queue := []), m)
    case SyncQueue =>
      var queue := CleanQueue(m.queue, MAX_QUEUE);
      if WireSize(queue) > MAX_QUEUE_BYTES then Reject(p, QueueTooLarge)
      else Accept(p.(queue := queue, title := m.title), m)
    case UpdateTrack => Update(p, m, now)
    case SetVolume =>
      if m.volume.NotFinite? || m.volume.v < 0.0 || m.volume.v > 1.0 then Reject(p, InvalidVolume)
      else Accept(p.(volume := m.volume.v), m)
    case Unknown => Reject(p, UnknownAction)
  }

  function Publish(p: Play, m: Request, now: int): (Play, Outcome)
  {
    var r := Next64(p.revision);
    var q := p.(revision := r, trackRevision := if m.action.ChangeTrack? then r else p.trackRevision);
    (q, Applied(Sync(m.action, m.trackId, m.position, m.info, if QueueAction(m.action) then q.queue else m.queue,
                     q.title, m.volume, now, r)))
  }

  /** The critical section of `handlePlaybackAction`, for a request from the seated host. */
  function Handle(p: Play, m: Request, now: int, rtt: int): (Play, Outcome)
  {
    if m.hostSeq > 0 && m.hostSeq <= p.lastHostSeq then (p, Failed(StaleAction))
    else
      var q := if m.hostSeq > 0 then p.(lastHostSeq := m.hostSeq) else p;
      match Act(q, m, now, rtt)
      case Skip => (q, Ignored)
      case Reject(r, e) => (r, Failed(e))
      case Accept(r, fwd) => Publish(r, fwd, now)
  }

  /** An approved suggestion is inserted at the front of the queue. */
  function Suggested(p: Play, t: Track, now: int): (Play, Outcome)
  {
    if |p.queue| >= MAX_QUEUE then (p, Failed(QueueFull))
    else if Queued(p, t.id) then (p, Failed(DuplicateTrack))
    else
      var queue := [t] + p.queue;
      if WireSize(queue) > MAX_QUEUE_BYTES then (p, Failed(QueueTooLarge))
      else
        var q := p.(queue := queue, revision := Next64(p.revision));
        (q, Applied(Sync(QueueAdd, [], 0, Some(t), queue, [], Finite(0.0), now, q.revision)))
  }

  // ---- runs ----

  datatype Event = Host(m: Request, rtt: int) | Suggest(t: Track)

  /** A suggestion's track was cleaned when it was submitted. */
  predicate EventOk(e: Event) { e.Suggest? ==> Stored(e.t) }

  function Apply(p: Play, e: Event, now: int): (Play, Outcome)
  {
    match e
    case Host(m, rtt) => Handle(p, m, now, rtt)
    case Suggest(t) => Suggested(p, t, now)
  }

  lemma ChangeKeepsInv(p: Play, m: Request, t: int, now: int)
    requires PlayInv(p, t) && t <= now && Clock(now)
    ensures Change(p, m, now).Reject? ==> PlayInv(Change(p, m, now).play, t)
    ensures Change(p, m, now).Accept? ==> PlayInv(Change(p, m, now).play, now)
  {
    hide Stored, CleanTrack, Clamp, Compensate, Live, HasTrack;
    if m.info.Some? && CleanTrack(m.info.value).Some? {
      CleanTrackStores(m.info.value);
      CleanQueueStores(m.queue, MAX_QUEUE);
      AdvanceShrinks(p.queue, CleanTrack(m.info.value).value.id);
    }
  }

  lemma AddKeepsInv(p: Play, m: Request, t: int)
    requires PlayInv(p, t)
    ensures Add(p, m).Accept? ==> PlayInv(Add(p, m).play, t)
  {
    hide Stored, CleanTrack, Clamp, Compensate, Live, HasTrack;
    if m.info.Some? && CleanTrack(m.info.value).Some? {
      CleanTrackStores(m.info.value);
    }
  }

  lemma ActKeepsInv(p: Play, m: Request, t: int, now: int, rtt: int)
    requires PlayInv(p, t) && t <= now && Clock(now)
    ensures match Act(p, m, now, rtt)
            case Skip => true
            case Reject(q, _) => PlayInv(q, now)
            case Accept(q, _) => PlayInv(q, now)
  {
    hide Stored, CleanTrack, Compensate, Live, HasTrack;
    match m.action
    case ChangeTrack => ChangeKeepsInv(p, m, t, now);
    case QueueAdd => AddKeepsInv(p, m, t);
    case QueueRemove => WithoutShrinks(p.queue, m.trackId);
    case SyncQueue => CleanQueueStores(m.queue, MAX_QUEUE);
    case UpdateTrack =>
      if m.info.Some? && CleanTrack(m.info.value).Some? { CleanTrackStores(m.info.value); }
    case _ =>
  }

  /** One action or approved suggestion keeps positions, queue and volume in range. */
  lemma ApplyKeepsInv(p: Play, e: Event, t: int, now: int)
    requires PlayInv(p, t) && t <= now && Clock(now) && EventOk(e)
    ensures PlayInv(Apply(p, e, now).0, now)
  {
    hide Stored, CleanTrack, Clamp, Compensate, Live, HasTrack;
    match e
    case Host(m, rtt) =>
      if !(m.hostSeq > 0 && m.hostSeq <= p.lastHostSeq) {
        ActKeepsInv(if m.hostSeq > 0 then p.(lastHostSeq := m.hostSeq) else p, m, t, now, rtt);
      }
    case Suggest(track) =>
  }

  /** Revisions count the published events, and the track's is one of them. */
  lemma ApplyCounts(p: Play, e: Event, now: int)
    requires p.revision + 1 < TWO64
    ensures match Apply(p, e, now).1
            case Applied(msg) => Apply(p, e, now).0.revision == p.revision + 1 == msg.revision && msg.serverTime == now
            case _ => Apply(p, e, now).0.revision == p.revision
    ensures p.trackRevision <= p.revision ==> Apply(p, e, now).0.trackRevision <= Apply(p, e, now).0.revision
  {
    hide CleanTrack, CleanQueue, WireSize, Clamp, Compensate, Live, HasTrack, Without, Advance;
  }

  /** A rejected request changes nothing a listener can see. It may still have
      recorded its sequence number, and a track change whose replacement queue is
      too large has already replaced the queue title. */
  lemma RejectedEffect(p: Play, m: Request, now: int, rtt: int)
    requires Handle(p, m, now, rtt).1.Failed?
    ensures var e := Handle(p, m, now, rtt).1.error;
            Handle(p, m, now, rtt).0 ==
            p.(lastHostSeq := if m.hostSeq > p.lastHostSeq then m.hostSeq else p.lastHostSeq,
               title := if m.action.ChangeTrack? && e.QueueTooLarge? && (m.queue != [] || m.replaceQueue)
                        then m.title else p.title)
  {
    hide Stored, CleanTrack, Clamp, Compensate, Live, HasTrack;
  }

  lemma {:induction false} WithoutAbsent(q: seq<Track>, id: Str)
    requires !HasTrack(q, id)
    ensures Without(q, id) == q
  {
    if q != [] {
      assert q[0] in q && forall t :: t in q[1..] ==> t in q;
      WithoutAbsent(q[1..], id);
    }
  }

  /** Removing undoes adding: an added track is in the queue once, first or last
      as asked, and taking it out again gives the old queue back. */
  lemma RemoveUndoesAdd(p: Play, m: Request, now: int, rtt: int)
    requires m.action.QueueAdd? && Handle(p, m, now, rtt).1.Applied?
    ensures var q := Handle(p, m, now, rtt).0.queue;
            && |q| == |p.queue| + 1 && (if m.insertNext then q[0] else q[|q| - 1]).id == m.info.value.id
            && !HasTrack(p.queue, m.info.value.id) && Without(q, m.info.value.id) == p.queue
  {
    hide WireSize, CleanTrack, HasTrack, Without;
    var t := CleanTrack(m.info.value).value;
    CleanKeepsId(m.info.value);
    AddedOnce(p.queue, t);
  }

  lemma AddedOnce(q: seq<Track>, t: Track)
    requires !HasTrack(q, t.id)
    ensures Without([t] + q, t.id) == q && Without(q + [t], t.id) == q
  {
    hide HasTrack;
    WithoutAbsent(q, t.id);
    assert ([t] + q)[1..] == q;
    WithoutExtend(q, t, t.id);
  }

  /** Starting a queued track consumes the queue through it, so it is not played twice. */
  lemma ChangeTrackConsumes(p: Play, m: Request, now: int, rtt: int)
    requires m.action.ChangeTrack? && m.queue == [] && !m.replaceQueue && Handle(p, m, now, rtt).1.Applied?
    ensures var q := Handle(p, m, now, rtt).0;
            && q.track.Some? && q.track.value.id == m.info.value.id && !q.playing && q.position == 0
            && q.trackRevision == q.revision
            && exists k :: 0 <= k <= |p.queue| && q.queue == p.queue[k..]
                 && (if k == 0 then !HasTrack(p.queue, m.info.value.id) else p.queue[k - 1].id == m.info.value.id)
                 && forall j :: 0 <= j < k - 1 ==> p.queue[j].id != m.info.value.id
  {
    var id := CleanTrack(m.info.value).value.id;
    if HasTrack(p.queue, id) {
      var k := FirstIndex(p.queue, id);
      AfterFirstAt(p.queue, id, k);
      assert p.queue[(k + 1) - 1].id == id;
    } else {
      assert p.queue[0..] == p.queue;
    }
  }

  lemma {:induction false} FirstIndex(q: seq<Track>, id: Str) returns (k: nat)
    requires HasTrack(q, id)
    ensures k < |q| && q[k].id == id && forall j :: 0 <= j < k ==> q[j].id != id
  {
    if q[0].id == id {
      k := 0;
    } else {
      assert q == [q[0]] + q[1..];
      k := FirstIndex(q[1..], id);
      k := k + 1;
    }
  }
}
