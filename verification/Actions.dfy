/**
 What each of the host's actions does to the room and what it announces, action
 by action: when it is refused and why, and, when it is applied, every field of
 the new state.
 */
module Actions {
  import opened Base
  import opened Text
  import opened Tracks
  import opened Playback

  /** No later request of this host was handled before. */
  predicate Fresh(p: Play, m: Request) { m.hostSeq == 0 || m.hostSeq > p.lastHostSeq }

  /** The state with nothing but its counters moved: one more revision, and the
      request's number remembered if it has one. */
  function Counted(p: Play, m: Request): Play
  {
    p.(revision := (p.revision + 1) % 0x1_0000_0000_0000_0000,
       lastHostSeq := if m.hostSeq > 0 then m.hostSeq else p.lastHostSeq)
  }

  /** The request and the clock hold int64 values. */
  predicate Sized(m: Request, now: int, rtt: int)
  {
    Int64(m.position) && Int64(m.captured) && 0 <= now <= MAX64 && 0 <= rtt <= MAX64
  }

  /** The request names another track than the current one. */
  predicate WrongTrack(p: Play, m: Request) { p.track.Some? && m.trackId != [] && m.trackId != p.track.value.id }

  // ---- play, pause, seek ----

  /** Where play, pause and seek put the room. What the host meant is advanced by
      the time the request was under way if the room is playing afterwards, and
      taken as it is if the room stands still. */
  lemma TransportLands(p: Play, m: Request, now: int, rtt: int)
    requires (m.action.PlayAct? || m.action.Pause? || m.action.Seek?) && Sized(m, now, rtt)
    ensures var (q, o) := Handle(p, m, now, rtt);
            if !Fresh(p, m) then o == Failed(StaleAction)
            else if m.action.PlayAct? && p.track.None? then o == Failed(NoTrack)
            else if m.position < 0 then o == Failed(InvalidPosition)
            else if WrongTrack(p, m) then o == Failed(StaleTrack)
            else o.Applied? && o.msg.action == m.action && o.msg.position == q.position
                 && o.msg.trackId == if p.track.Some? then p.track.value.id else m.trackId
    ensures var (q, o) := Handle(p, m, now, rtt);
            o.Applied? ==>
              && q == Counted(p, m).(playing := q.playing, position := q.position, lastUpdate := now)
              && (m.action.PlayAct? ==> q.playing) && (m.action.Pause? ==> !q.playing)
              && (m.action.Seek? ==> q.playing == p.playing)
              && (q.playing ==> q.position == Min(m.position + Transit(m.captured, now, rtt), MAX_DURATION))
              && (!q.playing ==> q.position == Min(m.position, MAX_DURATION))
  {
    hide Compensate, Transit, Clamp;
    CompensateExact(m.position, m.captured, now, rtt);
    TransitForward(m.captured, now, rtt);
    if m.position >= 0 {
      ClampForward(m.position);
      ClampForward(m.position + Transit(m.captured, now, rtt));
    }
  }

  lemma TransitForward(captured: int, now: int, rtt: int)
    ensures 0 <= Transit(captured, now, rtt) <= 30_000
    ensures 0 < captured <= now <= captured + 30_000 ==> Transit(captured, now, rtt) == now - captured
  {
  }

  lemma ClampForward(x: int)
    requires x >= 0
    ensures Clamp(x) == Min(x, MAX_DURATION)
  {
  }

  /** The room follows the host: if the host stood at m.position at the server time
      captured with the request, then from the moment the request is handled every
      listener stands where the host stands, at any later time, however long the
      request was under way within half a minute. */
  lemma RoomFollowsHost(p: Play, m: Request, now: int, rtt: int, t: int)
    requires (m.action.PlayAct? || (m.action.Seek? && p.playing)) && Sized(m, now, rtt)
    requires 0 < m.captured <= now <= m.captured + 30_000 && now <= t && Handle(p, m, now, rtt).1.Applied?
    ensures Timeline(Handle(p, m, now, rtt).0, t) == Min(m.position + (t - m.captured), MAX_DURATION)
  {
    hide Handle, Transit;
    TransportLands(p, m, now, rtt);
    TransitForward(m.captured, now, rtt);
  }

  /** A paused room stands where the host paused it. */
  lemma PauseStands(p: Play, m: Request, now: int, rtt: int, t: int)
    requires m.action.Pause? && Sized(m, now, rtt) && now <= t && Handle(p, m, now, rtt).1.Applied?
    ensures Timeline(Handle(p, m, now, rtt).0, t) == Min(m.position, MAX_DURATION)
  {
    hide Handle, Transit;
    TransportLands(p, m, now, rtt);
  }

  // ---- tracks ----

  /** A new track is loaded at its start and not yet playing, its revision marked;
      the queue is the one sent along, cleaned, or what was queued behind it. */
  lemma ChangeLoads(p: Play, m: Request, now: int, rtt: int)
    requires m.action.ChangeTrack?
    ensures var (q, o) := Handle(p, m, now, rtt); var sent := m.queue != [] || m.replaceQueue;
            var queue := if sent then CleanQueue(m.queue, 1000)
                         else if m.info.None? then [] else Advance(p.queue, m.info.value.id);
            if !Fresh(p, m) then o == Failed(StaleAction)
            else if m.info.None? then o == Failed(MissingTrackInfo)
            else if !ValidTrackId(m.info.value.id) then o == Failed(InvalidTrackInfo)
            else if WireSize(queue) > 409_600 then o == Failed(QueueTooLarge)
            else
              && o.Applied? && o.msg.info == q.track && o.msg.position == 0 && o.msg.queue == queue
              && o.msg.title == q.title && o.msg.trackId == m.info.value.id
              && q == Counted(p, m).(track := CleanTrack(m.info.value), playing := false, position := 0, lastUpdate := now,
                                     queue := queue, title := if sent then m.title else p.title,
                                     trackRevision := Counted(p, m).revision)
  {
    hide CleanQueue, WireSize, Advance, ValidTrackId, Sanitize;
  }

  /** A correction replaces the current track's details and nothing else; the
      announced position is where the room stands. */
  lemma UpdateCorrects(p: Play, m: Request, now: int, rtt: int)
    requires m.action.UpdateTrack?
    ensures var (q, o) := Handle(p, m, now, rtt);
            if !Fresh(p, m) then o == Failed(StaleAction)
            else if m.info.None? || !ValidTrackId(m.info.value.id) then o == Failed(InvalidTrackInfo)
            else if p.track.None? || p.track.value.id != m.info.value.id then o == Failed(StaleTrack)
            else
              && o.Applied? && o.msg.info == q.track && o.msg.trackId == m.info.value.id && o.msg.position == Live(p, now)
              && q == Counted(p, m).(track := CleanTrack(m.info.value))
  {
    hide Sanitize, ValidTrackId, Live;
    if m.info.Some? && ValidTrackId(m.info.value.id) {
      SameTimeline(p, p.(track := CleanTrack(m.info.value)), now);
      SameTimeline(p, p.(track := CleanTrack(m.info.value), lastHostSeq := m.hostSeq), now);
    }
  }

  // ---- the queue ----

  /** A track is put next or last, unless it is already playing or queued or there
      is no room for it. */
  lemma AddQueues(p: Play, m: Request, now: int, rtt: int)
    requires m.action.QueueAdd?
    ensures var (q, o) := Handle(p, m, now, rtt);
            if !Fresh(p, m) then o == Failed(StaleAction)
            else if m.info.None? then o == Failed(MissingTrackInfo)
            else if !ValidTrackId(m.info.value.id) then o == Failed(InvalidTrackInfo)
            else if |p.queue| >= 1000 then o == Failed(QueueFull)
            else if (p.track.Some? && p.track.value.id == m.info.value.id)
                    || exists x :: x in p.queue && x.id == m.info.value.id
            then o == Failed(DuplicateTrack)
            else
              var t := CleanTrack(m.info.value).value;
              var queue := if m.insertNext then [t] + p.queue else p.queue + [t];
              if WireSize(p.queue) + TrackSize(t) > 409_600 then o == Failed(QueueTooLarge)
              else o.Applied? && o.msg.info == Some(t) && o.msg.queue == queue && q == Counted(p, m).(queue := queue)
  {
    hide WireSize, ValidTrackId, Sanitize, TrackSize;
    if m.info.Some? && CleanTrack(m.info.value).Some? {
      var t := CleanTrack(m.info.value).value;
      WireSizeAppend([t], p.queue);
      WireSizeAppend(p.queue, [t]);
      SizeOfOne(t);
    }
  }

  lemma SizeOfOne(t: Track)
    ensures WireSize([t]) == TrackSize(t)
  {
    assert [t][1..] == [];
  }

  /** Taking a track out of the queue leaves every other entry, in order. */
  lemma RemoveTakesOut(p: Play, m: Request, now: int, rtt: int, k: nat)
    requires m.action.QueueRemove?
    ensures var (q, o) := Handle(p, m, now, rtt);
            if !Fresh(p, m) then o == Failed(StaleAction)
            else if m.trackId == [] then o == Failed(MissingTrackId)
            else
              && o.Applied? && o.msg.queue == q.queue && o.msg.trackId == m.trackId
              && q == Counted(p, m).(queue := q.queue)
              && (k < |p.queue| ==>
                    q.queue == Without(p.queue[..k], m.trackId) + (if p.queue[k].id == m.trackId then [] else [p.queue[k]])
                               + Without(p.queue[k + 1..], m.trackId))
              && forall t :: t in q.queue <==> t in p.queue && t.id != m.trackId
  {
    hide Without;
    if k < |p.queue| { WithoutAt(p.queue, m.trackId, k); }
    WithoutShrinks(p.queue, m.trackId);
  }

  lemma {:induction false} WithoutAt(q: seq<Track>, id: Str, k: nat)
    requires k < |q|
    ensures Without(q, id) == Without(q[..k], id) + (if q[k].id == id then [] else [q[k]]) + Without(q[k + 1..], id)
  {
    if k > 0 {
      WithoutAt(q[1..], id, k - 1);
      assert q[..k][1..] == q[1..][..k - 1] && q[1..][k..] == q[k + 1..];
    }
  }

  /** Clearing leaves no queue, and the title as it was. */
  lemma ClearEmpties(p: Play, m: Request, now: int, rtt: int)
    requires m.action.QueueClear?
    ensures var (q, o) := Handle(p, m, now, rtt);
            if !Fresh(p, m) then o == Failed(StaleAction)
            else o.Applied? && o.msg.queue == [] && q == Counted(p, m).(queue := [])
  {
  }

  /** A queue sent as a whole replaces the room's: its usable entries, cleaned, in
      order, as many as fit, under the title sent along. */
  lemma SyncReplaces(p: Play, m: Request, now: int, rtt: int)
    requires m.action.SyncQueue?
    ensures var (q, o) := Handle(p, m, now, rtt);
            if !Fresh(p, m) then o == Failed(StaleAction)
            else if WireSize(CleanQueue(m.queue, 1000)) > 409_600 then o == Failed(QueueTooLarge)
            else
              && o.Applied? && o.msg.queue == q.queue && o.msg.title == m.title
              && q == Counted(p, m).(queue := q.queue, title := m.title)
              && |q.queue| == Min(1000, |Usable(m.queue)|)
              && forall i :: 0 <= i < |q.queue| ==> Some(q.queue[i]) == CleanTrack(Usable(m.queue)[i])
  {
    hide CleanTrack, CleanQueue, WireSize, Usable;
    CleanQueueEntries(m.queue, 1000);
  }

  // ---- the rest ----

  /** The volume is the one asked for, if that is a number from 0 to 1. */
  lemma VolumeIsSet(p: Play, m: Request, now: int, rtt: int)
    requires m.action.SetVolume?
    ensures var (q, o) := Handle(p, m, now, rtt);
            if !Fresh(p, m) then o == Failed(StaleAction)
            else if m.volume.Finite? && 0.0 <= m.volume.v <= 1.0
            then o.Applied? && o.msg.volume == m.volume && q == Counted(p, m).(volume := m.volume.v)
            else o == Failed(InvalidVolume)
  {
  }

  /** Skips are left to the host's own player, and unknown actions are refused. */
  lemma SkipsWait(p: Play, m: Request, now: int, rtt: int)
    requires m.action.SkipNext? || m.action.SkipPrev? || m.action.Unknown?
    ensures var (q, o) := Handle(p, m, now, rtt);
            && o == (if !Fresh(p, m) then Failed(StaleAction)
                     else if m.action.Unknown? then Failed(UnknownAction) else Ignored)
            && q == p.(lastHostSeq := if Fresh(p, m) then Counted(p, m).lastHostSeq else p.lastHostSeq)
  {
  }

  /** Whatever is applied is announced with the room's new revision, title and time,
      and a queue action with the room's new queue. */
  lemma AnnouncesItself(p: Play, m: Request, now: int, rtt: int)
    requires Handle(p, m, now, rtt).1.Applied?
    ensures var (q, o) := Handle(p, m, now, rtt);
            && o.msg.action == m.action && o.msg.revision == q.revision && o.msg.serverTime == now
            && o.msg.title == q.title
            && (m.action in {ChangeTrack, QueueAdd, QueueRemove, QueueClear, SyncQueue} ==> o.msg.queue == q.queue)
  {
    hide CleanTrack, CleanQueue, WireSize, Clamp, Compensate, Live, HasTrack, Without, Advance;
  }

  /** An approved suggestion is put next in the queue and announced without the
      queue's title; nothing else of the playback changes. */
  lemma SuggestionQueues(p: Play, t: Track, now: int)
    ensures var (q, o) := Suggested(p, t, now);
            if |p.queue| >= 1000 then q == p && o == Failed(QueueFull)
            else if (p.track.Some? && p.track.value.id == t.id) || exists x :: x in p.queue && x.id == t.id
            then q == p && o == Failed(DuplicateTrack)
            else if TrackSize(t) + WireSize(p.queue) > 409_600 then q == p && o == Failed(QueueTooLarge)
            else
              && q == p.(queue := [t] + p.queue, revision := (p.revision + 1) % 0x1_0000_0000_0000_0000)
              && o.Applied? && o.msg.action.QueueAdd? && o.msg.info == Some(t) && o.msg.queue == q.queue
              && o.msg.revision == q.revision && o.msg.serverTime == now && o.msg.title == []
  {
    hide WireSize, TrackSize;
    WireSizeAppend([t], p.queue);
    SizeOfOne(t);
  }
}
