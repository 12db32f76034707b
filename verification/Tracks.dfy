/** Track metadata and the upcoming queue: `sanitizeTrackInfo`, `sanitizeQueue` and friends. */
module Tracks {
  import opened Base
  import opened Text

  const MAX_TITLE := 200
  const MAX_ARTIST := 200
  const MAX_URL := 2048
  const MAX_USERNAME := 50
  const MAX_DURATION := 86_400_000 // 24 hours in milliseconds
  const MAX_QUEUE := 1000
  const MAX_QUEUE_BYTES := 409_600

  datatype Track = Track(id: Str, title: Str, artist: Str, album: Str, duration: int, thumbnail: Str, suggestedBy: Str)

  /** `sanitizeTrackInfo`; None where the source returns false. */
  function CleanTrack(t: Track): Option<Track>
  {
    if !ValidTrackId(t.id) then None
    else
      var title := Sanitize(t.title, MAX_TITLE);
      Some(Track(t.id,
                 if title == [] then Sanitize(t.id, MAX_TITLE) else title,
                 Sanitize(t.artist, MAX_ARTIST),
                 Sanitize(t.album, MAX_ARTIST),
                 Max(0, Min(t.duration, MAX_DURATION)),
                 Sanitize(t.thumbnail, MAX_URL),
                 Sanitize(t.suggestedBy, MAX_USERNAME)))
  }

  /** What every track kept in a room satisfies. */
  predicate Stored(t: Track)
  {
    && ValidTrackId(t.id)
    && Clean(t.title, MAX_TITLE) && Clean(t.artist, MAX_ARTIST) && Clean(t.album, MAX_ARTIST)
    && Clean(t.thumbnail, MAX_URL) && Clean(t.suggestedBy, MAX_USERNAME)
    && 0 <= t.duration <= MAX_DURATION
    && (t.title == [] ==> Sanitize(t.id, MAX_TITLE) == [])
  }

  lemma CleanTrackStores(t: Track)
    requires CleanTrack(t).Some?
    ensures Stored(CleanTrack(t).value) && CleanTrack(t).value.id == t.id
  {
    SanitizeIsClean(t.title, MAX_TITLE);
    SanitizeIsClean(t.id, MAX_TITLE);
    SanitizeIsClean(t.artist, MAX_ARTIST);
    SanitizeIsClean(t.album, MAX_ARTIST);
    SanitizeIsClean(t.thumbnail, MAX_URL);
    SanitizeIsClean(t.suggestedBy, MAX_USERNAME);
  }

  /** What cleaning does to each field; only an unusable ID is refused. */
  lemma CleanTrackFields(t: Track)
    ensures CleanTrack(t).Some? <==> ValidTrackId(t.id)
    ensures CleanTrack(t).Some? ==>
              var r := CleanTrack(t).value;
              && r.id == t.id
              && r.artist == Sanitize(t.artist, 200)
              && r.album == Sanitize(t.album, 200)
              && r.thumbnail == Sanitize(t.thumbnail, 2048)
              && r.suggestedBy == Sanitize(t.suggestedBy, 50)
              && (Sanitize(t.title, 200) != [] ==> r.title == Sanitize(t.title, 200))
              && (Sanitize(t.title, 200) == [] ==> r.title == Sanitize(t.id, 200))
              && (t.duration < 0 ==> r.duration == 0)
              && (0 <= t.duration <= 86_400_000 ==> r.duration == t.duration)
              && (t.duration > 86_400_000 ==> r.duration == 86_400_000)
  {
    hide Sanitize, ValidTrackId;
  }

  lemma CleanKeepsId(t: Track)
    requires CleanTrack(t).Some?
    ensures CleanTrack(t).value.id == t.id
  {
    hide Sanitize;
  }

  /** One entry of `queueWireSize`. */
  function TrackSize(t: Track): nat
  {
    |t.id| + |t.title| + |t.artist| + |t.album| + |t.thumbnail| + |t.suggestedBy| + 32
  }

  /** Cleaning a stored track again never grows it and never loses a title. */
  lemma RecleanShrinks(t: Track)
    requires Stored(t)
    ensures CleanTrack(t).Some?
    ensures var r := CleanTrack(t).value;
            && Stored(r) && r.id == t.id && r.duration == t.duration
            && TrackSize(r) <= TrackSize(t)
            && (r.title == [] <==> t.title == [])
  {
    CleanTrackStores(t);
    ResanitizeShrinks(t.title, MAX_TITLE);
    ResanitizeShrinks(t.artist, MAX_ARTIST);
    ResanitizeShrinks(t.album, MAX_ARTIST);
    ResanitizeShrinks(t.thumbnail, MAX_URL);
    ResanitizeShrinks(t.suggestedBy, MAX_USERNAME);
  }

  // ---- the queue ----

  function WireSize(q: seq<Track>): nat
  {
    if q == [] then 0 else TrackSize(q[0]) + WireSize(q[1..])
  }

  lemma {:induction false} WireSizeAppend(p: seq<Track>, q: seq<Track>)
    ensures WireSize(p + q) == WireSize(p) + WireSize(q)
  {
    if p == [] {
      assert p + q == q;
    } else {
      assert (p + q)[1..] == p[1..] + q;
      WireSizeAppend(p[1..], q);
    }
  }

  method QueueWireSize(q: seq<Track>) returns (size: nat)
    ensures size == WireSize(q)
  {
    size := 0;
    for i := 0 to |q|
      invariant size == WireSize(q[..i])
    {
      assert q[..i + 1] == q[..i] + [q[i]];
      WireSizeAppend(q[..i], [q[i]]);
      size := size + TrackSize(q[i]);
    }
    assert q[..|q|] == q;
  }

  /** The first `room` entries with a usable ID, cleaned. */
  function CleanQueue(q: seq<Track>, room: nat): seq<Track>
  {
    if q == [] || room == 0 then []
    else match CleanTrack(q[0])
      case None => CleanQueue(q[1..], room)
      case Some(t) => [t] + CleanQueue(q[1..], room - 1)
  }

  lemma {:induction false} CleanQueueExtend(q: seq<Track>, room: nat, t: Track)
    ensures |CleanQueue(q, room)| <= room
    ensures CleanQueue(q + [t], room) ==
            if |CleanQueue(q, room)| < room && CleanTrack(t).Some?
            then CleanQueue(q, room) + [CleanTrack(t).value] else CleanQueue(q, room)
  {
    hide CleanTrack;
    if room > 0 {
      if q == [] {
        assert q + [t] == [t] && [t][1..] == [];
        assert CleanQueue([], room - 1) == [] && CleanQueue([], room) == [];
      } else {
        assert (q + [t])[1..] == q[1..] + [t];
        CleanQueueExtend(q[1..], if CleanTrack(q[0]).Some? then room - 1 else room, t);
      }
    }
  }

  lemma {:induction false} CleanQueueFull(p: seq<Track>, q: seq<Track>, room: nat)
    requires |CleanQueue(p, room)| == room
    ensures CleanQueue(p + q, room) == CleanQueue(p, room)
    decreases |q|
  {
    hide CleanTrack;
    if q == [] {
      assert p + q == p;
    } else {
      CleanQueueExtend(p, room, q[0]);
      assert p + q == (p + [q[0]]) + q[1..];
      CleanQueueFull(p + [q[0]], q[1..], room);
    }
  }

  method SanitizeQueue(q: seq<Track>) returns (r: seq<Track>)
    ensures r == CleanQueue(q, MAX_QUEUE)
  {
    hide CleanTrack;
    r := [];
    for i := 0 to |q|
      invariant r == CleanQueue(q[..i], MAX_QUEUE) && |r| < MAX_QUEUE
    {
      assert q[..i + 1] == q[..i] + [q[i]];
      CleanQueueExtend(q[..i], MAX_QUEUE, q[i]);
      match CleanTrack(q[i]) {
        case None =>
        case Some(t) =>
          r := r + [t];
          if |r| == MAX_QUEUE {
            CleanQueueFull(q[..i + 1], q[i + 1..], MAX_QUEUE);
            assert q[..i + 1] + q[i + 1..] == q;
            return;
          }
      }
    }
    assert q[..|q|] == q;
  }

  predicate AllStored(q: seq<Track>) { forall t :: t in q ==> Stored(t) }

  /** The bounds every room queue obeys. */
  predicate QueueOk(q: seq<Track>)
  {
    |q| <= MAX_QUEUE && AllStored(q) && WireSize(q) <= MAX_QUEUE_BYTES
  }

  lemma {:induction false} CleanQueueStores(q: seq<Track>, room: nat)
    ensures AllStored(CleanQueue(q, room)) && |CleanQueue(q, room)| <= room
  {
    hide CleanTrack, Stored;
    if q != [] && room > 0 {
      if CleanTrack(q[0]).Some? {
        CleanTrackStores(q[0]);
        CleanQueueStores(q[1..], room - 1);
      } else {
        CleanQueueStores(q[1..], room);
      }
    }
  }

  function Ids(q: seq<Track>): seq<Str> { seq(|q|, i requires 0 <= i < |q| => q[i].id) }

  /** Re-cleaning a stored queue keeps every entry in order, entry by entry no larger. */
  lemma {:induction false} RecleanQueue(q: seq<Track>, room: nat)
    requires AllStored(q) && |q| <= room
    ensures var r := CleanQueue(q, room);
            && AllStored(r) && Ids(r) == Ids(q) && WireSize(r) <= WireSize(q)
  {
    hide CleanTrack, Stored;
    CleanQueueStores(q, room);
    if q != [] {
      RecleanShrinks(q[0]);
      RecleanQueue(q[1..], room - 1);
      assert Ids(q) == [q[0].id] + Ids(q[1..]);
      var r := CleanQueue(q, room);
      assert r[1..] == CleanQueue(q[1..], room - 1);
      assert Ids(r) == [r[0].id] + Ids(r[1..]);
    }
  }

  /** The usable IDs of a queue, in order. */
  function UsableIds(q: seq<Track>): seq<Str>
  {
    if q == [] then [] else (if ValidTrackId(q[0].id) then [q[0].id] else []) + UsableIds(q[1..])
  }

  /** Cleaning drops exactly the entries without a usable ID, keeps the rest in
      order, and stops at the limit. */
  lemma {:induction false} CleanQueueIds(q: seq<Track>, room: nat)
    ensures Ids(CleanQueue(q, room)) == UsableIds(q)[..Min(room, |UsableIds(q)|)]
  {
    hide Sanitize, ValidTrackId;
    if q != [] && room > 0 {
      var t := CleanTrack(q[0]);
      CleanQueueIds(q[1..], if t.Some? then room - 1 else room);
      if t.Some? {
        var r := CleanQueue(q, room);
        assert r[1..] == CleanQueue(q[1..], room - 1);
        assert Ids(r) == [r[0].id] + Ids(r[1..]);
      }
    }
  }

  /** The entries with a usable ID, in order. */
  function Usable(q: seq<Track>): (r: seq<Track>)
    ensures forall t :: t in r <==> t in q && ValidTrackId(t.id)
  {
    if q == [] then [] else
      assert forall t :: t in q <==> t == q[0] || t in q[1..];
      (if ValidTrackId(q[0].id) then [q[0]] else []) + Usable(q[1..])
  }

  /** The cleaned queue is the first usable entries, in order, each cleaned. */
  lemma {:induction false} CleanQueueEntries(q: seq<Track>, room: nat)
    ensures |CleanQueue(q, room)| == Min(room, |Usable(q)|)
    ensures forall i :: 0 <= i < |CleanQueue(q, room)| ==> Some(CleanQueue(q, room)[i]) == CleanTrack(Usable(q)[i])
  {
    hide Sanitize, ValidTrackId;
    if q != [] && room > 0 {
      var t := CleanTrack(q[0]);
      CleanQueueEntries(q[1..], if t.Some? then room - 1 else room);
      if t.Some? {
        assert CleanQueue(q, room)[1..] == CleanQueue(q[1..], room - 1);
        assert Usable(q)[1..] == Usable(q[1..]);
      }
    }
  }

  predicate HasTrack(q: seq<Track>, id: Str) { exists t :: t in q && t.id == id }

  method ContainsTrackID(q: seq<Track>, id: Str) returns (found: bool)
    ensures found == HasTrack(q, id)
  {
    for i := 0 to |q|
      invariant !HasTrack(q[..i], id)
    {
      if q[i].id == id { return true; }
      assert q[..i + 1] == q[..i] + [q[i]];
    }
    assert q[..|q|] == q;
    return false;
  }

  /** Everything after the first entry with this ID; the whole queue when there is none. */
  function Advance(q: seq<Track>, id: Str): seq<Track>
  {
    if !HasTrack(q, id) then q else AfterFirst(q, id)
  }

  function AfterFirst(q: seq<Track>, id: Str): seq<Track>
  {
    if q == [] then [] else if q[0].id == id then q[1..] else AfterFirst(q[1..], id)
  }

  lemma {:induction false} AfterFirstAt(q: seq<Track>, id: Str, i: nat)
    requires i < |q| && q[i].id == id && forall j :: 0 <= j < i ==> q[j].id != id
    ensures AfterFirst(q, id) == q[i + 1..]
  {
    if i > 0 {
      AfterFirstAt(q[1..], id, i - 1);
    }
  }

  method AdvanceQueue(q: seq<Track>, id: Str) returns (r: seq<Track>)
    ensures r == Advance(q, id)
  {
    for i := 0 to |q|
      invariant forall j :: 0 <= j < i ==> q[j].id != id
    {
      if q[i].id == id {
        AfterFirstAt(q, id, i);
        assert q[i] in q;
        return q[i + 1..];
      }
    }
    return q;
  }

  lemma {:induction false} AdvanceShrinks(q: seq<Track>, id: Str)
    ensures var r := Advance(q, id);
            |r| <= |q| && (forall t :: t in r ==> t in q) && WireSize(r) <= WireSize(q)
    ensures HasTrack(q, id) ==> |Advance(q, id)| < |q|
  {
    if HasTrack(q, id) && q[0].id != id {
      assert HasTrack(q[1..], id) by {
        var t :| t in q && t.id == id;
        assert q == [q[0]] + q[1..];
      }
      AdvanceShrinks(q[1..], id);
    }
  }

  /** The queue without one ID. */
  function Without(q: seq<Track>, id: Str): seq<Track>
  {
    if q == [] then [] else if q[0].id == id then Without(q[1..], id) else [q[0]] + Without(q[1..], id)
  }

  lemma {:induction false} WithoutExtend(q: seq<Track>, t: Track, id: Str)
    ensures Without(q + [t], id) == if t.id == id then Without(q, id) else Without(q, id) + [t]
  {
    if q == [] {
      assert q + [t] == [t] && [t][1..] == [];
    } else {
      assert (q + [t])[1..] == q[1..] + [t];
      WithoutExtend(q[1..], t, id);
    }
  }

  method RemoveTrack(q: seq<Track>, id: Str) returns (r: seq<Track>)
    ensures r == Without(q, id)
  {
    r := [];
    for i := 0 to |q|
      invariant r == Without(q[..i], id)
    {
      assert q[..i + 1] == q[..i] + [q[i]];
      WithoutExtend(q[..i], q[i], id);
      if q[i].id != id { r := r + [q[i]]; }
    }
    assert q[..|q|] == q;
  }

  lemma {:induction false} WithoutShrinks(q: seq<Track>, id: Str)
    ensures var r := Without(q, id);
            && |r| <= |q| && WireSize(r) <= WireSize(q)
            && (forall t :: t in r <==> t in q && t.id != id)
  {
    if q != [] {
      WithoutShrinks(q[1..], id);
      assert q == [q[0]] + q[1..];
    }
  }
}
