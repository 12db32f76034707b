/**
 Playback as `handlePlaybackAction` changes it: field by field, in place, with
 an early return for every refusal. Proved equal to Playback.Handle, the
 function all properties are stated about.
 */
module PlaybackObject {
  import opened Base
  import opened Text
  import opened Tracks
  import opened Playback

  class Player {
    var track: Option<Track>
    var playing: bool
    var position: int
    var lastUpdate: int
    var volume: real
    var queue: seq<Track>
    var revision: nat
    var title: Str
    var trackRevision: nat
    var lastHostSeq: nat

    function State(): Play
      reads this
    {
      Play(track, playing, position, lastUpdate, volume, queue, revision, title, trackRevision, lastHostSeq)
    }

    constructor (now: int)
      ensures State() == Play(None, false, 0, now, 1.0, [], 0, [], 0, 0)
    {
      track, playing, position, lastUpdate, volume := None, false, 0, now, 1.0;
      queue, revision, title, trackRevision, lastHostSeq := [], 0, [], 0, 0;
    }

    /** The cases play, pause and seek. */
    method DoTransport(m: Request, now: int, rtt: int) returns (refused: Option<Error>, fwd: Request)
      requires m.action.PlayAct? || m.action.Pause? || m.action.Seek?
      modifies this
      ensures Result(refused, fwd) == Transport(old(State()), m, now, rtt)
    {
      hide Compensate;
      fwd := m;
      if m.action.PlayAct? && track.None? { return Some(NoTrack), m; }
      if m.position < 0 { return Some(InvalidPosition), m; }
      if track.Some? {
        if m.trackId != [] && m.trackId != track.value.id { return Some(StaleTrack), m; }
        fwd := fwd.(trackId := track.value.id);
      }
      var at := m.position;
      if m.action.PlayAct? || (m.action.Seek? && playing) { at := Compensate(at, m.captured, now, rtt); }
      at := Clamp(at);
      fwd := fwd.(position := at);
      if m.action.PlayAct? { playing := true; }
      if m.action.Pause? { playing := false; }
      position, lastUpdate := at, now;
      refused := None;
    }

    /** What the specification calls the effect: a refusal, or the new state and
        the request to forward. */
    ghost function Result(refused: Option<Error>, fwd: Request): Effect
      reads this
    {
      match refused
      case Some(e) => Reject(State(), e)
      case None => Accept(State(), fwd)
    }

    /** The case change_track: the title is replaced before the size is checked. */
    method DoChange(m: Request, now: int) returns (refused: Option<Error>, fwd: Request)
      modifies this
      ensures Result(refused, fwd) == Change(old(State()), m, now)
    {
      hide CleanTrack, CleanQueue, WireSize, Advance;
      fwd := m;
      if m.info.None? { return Some(MissingTrackInfo), m; }
      var t := CleanTrack(m.info.value);
      if t.None? { return Some(InvalidTrackInfo), m; }
      var q := AdvanceQueue(queue, t.value.id);
      CleanKeepsId(m.info.value);
      if |m.queue| > 0 || m.replaceQueue {
        q := SanitizeQueue(m.queue);
        title := m.title;
      }
      var size := QueueWireSize(q);
      if size > MAX_QUEUE_BYTES { return Some(QueueTooLarge), m; }
      queue, track, position, playing, lastUpdate := q, t, 0, false, now;
      refused, fwd := None, m.(info := t, trackId := t.value.id, position := 0);
    }

    /** The case queue_add. */
    method DoAdd(m: Request) returns (refused: Option<Error>, fwd: Request)
      modifies this
      ensures Result(refused, fwd) == Add(old(State()), m)
    {
      hide CleanTrack, WireSize, HasTrack;
      fwd := m;
      if m.info.None? { return Some(MissingTrackInfo), m; }
      var t := CleanTrack(m.info.value);
      if t.None? { return Some(InvalidTrackInfo), m; }
      if |queue| >= MAX_QUEUE { return Some(QueueFull), m; }
      var queued := ContainsTrackID(queue, t.value.id);
      if (track.Some? && track.value.id == t.value.id) || queued { return Some(DuplicateTrack), m; }
      var q := if m.insertNext then [t.value] + queue else queue + [t.value];
      var size := QueueWireSize(q);
      if size > MAX_QUEUE_BYTES { return Some(QueueTooLarge), m; }
      queue := q;
      refused, fwd := None, m.(info := t);
    }

    /** The remaining cases. */
    method DoOther(m: Request, now: int) returns (refused: Option<Error>, fwd: Request)
      requires m.action.QueueRemove? || m.action.QueueClear? || m.action.SyncQueue?
               || m.action.UpdateTrack? || m.action.SetVolume? || m.action.Unknown?
      modifies this
      ensures forall rtt :: Result(refused, fwd) == Act(old(State()), m, now, rtt)
    {
      hide CleanTrack, CleanQueue, WireSize, Without, Live;
      fwd, refused := m, None;
      match m.action {
        case QueueRemove =>
          if m.trackId == [] { return Some(MissingTrackId), m; }
          queue := RemoveTrack(queue, m.trackId);
        case QueueClear => queue := [];
        case SyncQueue =>
          var q := SanitizeQueue(m.queue);
          var size := QueueWireSize(q);
          if size > MAX_QUEUE_BYTES { return Some(QueueTooLarge), m; }
          queue, title := q, m.title;
        case UpdateTrack =>
          if m.info.None? { return Some(InvalidTrackInfo), m; }
          var t := CleanTrack(m.info.value);
          if t.None? { return Some(InvalidTrackInfo), m; }
          if track.None? || track.value.id != t.value.id { return Some(StaleTrack), m; }
          track := t;
          fwd := m.(info := t, trackId := t.value.id, position := Live(State(), now));
        case SetVolume =>
          if m.volume.NotFinite? || m.volume.v < 0.0 || m.volume.v > 1.0 { return Some(InvalidVolume), m; }
          volume := m.volume.v;
        case Unknown => return Some(UnknownAction), m;
      }
    }

    /** `handlePlaybackAction` for a request of the seated host. */
    method HandleAction(m: Request, now: int, rtt: int) returns (o: Outcome)
      modifies this
      ensures (State(), o) == Handle(old(State()), m, now, rtt)
    {
      hide Transport, Change, Add, CleanTrack, CleanQueue, WireSize, Live;
      if m.hostSeq > 0 {
        if m.hostSeq <= lastHostSeq { return Failed(StaleAction); }
        lastHostSeq := m.hostSeq;
      }
      ghost var p := State();
      var refused, fwd;
      match m.action {
        case PlayAct => refused, fwd := DoTransport(m, now, rtt);
        case Pause => refused, fwd := DoTransport(m, now, rtt);
        case Seek => refused, fwd := DoTransport(m, now, rtt);
        case ChangeTrack => refused, fwd := DoChange(m, now);
        case QueueAdd => refused, fwd := DoAdd(m);
        case SkipNext => return Ignored;
        case SkipPrev => return Ignored;
        case _ => refused, fwd := DoOther(m, now);
      }
      assert Act(p, m, now, rtt) == Result(refused, fwd);
      ghost var r := State();
      if refused.Some? { return Failed(refused.value); }
      var copy := if QueueAction(fwd.action) then queue else fwd.queue;
      revision := Next64(revision);
      if fwd.action.ChangeTrack? { trackRevision := revision; }
      o := Applied(Sync(fwd.action, fwd.trackId, fwd.position, fwd.info, copy, title, fwd.volume, now, revision));
      assert (State(), o) == Publish(r, fwd, now);
    }
  }

  /** The connections that understand a feature, in order. */
  function Having(cs: seq<ConnId>, capable: set<ConnId>): seq<ConnId>
  {
    if cs == [] then [] else if cs[0] in capable then [cs[0]] + Having(cs[1..], capable) else Having(cs[1..], capable)
  }

  lemma {:induction false} HavingMore(cs: seq<ConnId>, c: ConnId, capable: set<ConnId>)
    ensures Having(cs + [c], capable) == if c in capable then Having(cs, capable) + [c] else Having(cs, capable)
  {
    if cs == [] {
      assert cs + [c] == [c] && [c][1..] == [];
    } else {
      assert (cs + [c])[1..] == cs[1..] + [c];
      HavingMore(cs[1..], c, capable);
    }
  }

  /** `withFeature`: the survivors move to the front of the same array. */
  method WithFeature(clients: array<ConnId>, capable: set<ConnId>) returns (n: nat)
    modifies clients
    ensures n <= clients.Length && clients[..n] == Having(old(clients[..]), capable)
  {
    n := 0;
    for i := 0 to clients.Length
      invariant n <= i && clients[..n] == Having(old(clients[..i]), capable)
      invariant clients[i..] == old(clients[i..])
    {
      assert clients[i] == clients[i..][0] == old(clients[i]);
      assert old(clients[..i + 1]) == old(clients[..i]) + [old(clients[i])];
      HavingMore(old(clients[..i]), old(clients[i]), capable);
      assert clients[i + 1..] == clients[i..][1..];
      if clients[i] in capable {
        clients[n] := clients[i];
        n := n + 1;
      }
    }
    assert old(clients[..clients.Length]) == old(clients[..]);
  }
}
