/**
 The write-behind flusher (`flushState`): it writes only the records that
 changed, and the stored rooms still end up exactly those of the snapshot.
 Records are the encoded bytes; the database is a map with atomic updates.
 */
module Flusher {
  import opened Base

  const HEARTBEAT := 30_000_000_000 // 30 seconds in nanoseconds

  datatype Report = Skipped | Written | Failed

  type Store = map<Code, Str>

  /** A missing record reads as an empty one. */
  function Read(m: Store, code: Code): Str { if code in m then m[code] else [] }

  function Changed(persisted: Store, records: Store): Store
  {
    map code | code in records && Read(persisted, code) != records[code] :: records[code]
  }

  function Removed(persisted: Store, records: Store): set<Code> { persisted.Keys - records.Keys }

  /** The store after one differential write. */
  function Applied(store: Store, changed: Store, removed: set<Code>): Store { (store + changed) - removed }

  /** The differential write is a full overwrite, unless a new record is empty:
      an empty record reads like a missing one and is not written. */
  lemma DiffIsOverwrite(persisted: Store, records: Store)
    ensures Applied(persisted, Changed(persisted, records), Removed(persisted, records)) == records <==>
            forall code :: code in records && records[code] == [] ==> code in persisted
  {
    var a := Applied(persisted, Changed(persisted, records), Removed(persisted, records));
    forall code | code in records ensures code in a <==> !(records[code] == [] && code !in persisted) {
    }
    if forall code :: code in records && records[code] == [] ==> code in persisted {
      forall code | code in records ensures code in a && a[code] == records[code] {
      }
      assert a.Keys == records.Keys;
    }
  }

  /** Nothing to write means nothing changed, under the same condition. */
  lemma IdleIsCurrent(persisted: Store, records: Store)
    requires Changed(persisted, records) == map[] && Removed(persisted, records) == {}
    ensures persisted == records <==> forall code :: code in records && records[code] == [] ==> code in persisted
  {
    forall code | code in records ensures Read(persisted, code) == records[code] {
      assert code !in Changed(persisted, records);
    }
    forall code | code in persisted ensures code in records {
      assert code !in Removed(persisted, records);
    }
  }

  /** With no empty record, there is nothing to write exactly when nothing changed. */
  lemma NothingToWrite(persisted: Store, records: Store)
    requires forall code :: code in records ==> records[code] != []
    ensures |Changed(persisted, records)| == 0 && |Removed(persisted, records)| == 0 <==> persisted == records
  {
    if |Changed(persisted, records)| == 0 && |Removed(persisted, records)| == 0 {
      IdleIsCurrent(persisted, records);
    }
  }

  class Writer {
    var persisted: Store        // last records written
    var bucket: Store           // the rooms bucket
    var stamp: Option<int>      // flushed_at, in milliseconds
    var lastFlush: Time

    ghost predicate Valid()
      reads this
    {
      persisted == bucket
    }

    /** A new process on an existing database. */
    constructor (bucket: Store, stamp: Option<int>)
      ensures this.bucket == bucket && this.stamp == stamp && persisted == map[]
    {
      this.bucket, this.stamp := bucket, stamp;
      persisted, lastFlush := map[], 0;
    }

    /** The end of `LoadState`: what was read counts as written. */
    method Load() returns (raw: Store, at: Option<int>)
      modifies this
      ensures Valid() && raw == bucket == old(bucket) && at == stamp == old(stamp)
    {
      raw, at := bucket, stamp;
      var todo := raw.Keys;
      persisted := map[];
      while todo != {}
        invariant todo <= raw.Keys && persisted == map code | code in raw && code !in todo :: raw[code]
        invariant raw == bucket == old(bucket) && at == stamp == old(stamp)
      {
        var code :| code in todo;
        persisted := persisted[code := raw[code]];
        todo := todo - {code};
      }
    }

    method FindChanged(records: Store) returns (changed: Store)
      ensures changed == Changed(persisted, records)
    {
      changed := map[];
      var todo := records.Keys;
      while todo != {}
        invariant todo <= records.Keys
        invariant changed == map code | code in records && code !in todo
                  && Read(persisted, code) != records[code] :: records[code]
      {
        var code :| code in todo;
        if Read(persisted, code) != records[code] { changed := changed[code := records[code]]; }
        todo := todo - {code};
      }
    }

    method FindRemoved(records: Store) returns (removed: set<Code>)
      ensures removed == Removed(persisted, records)
    {
      removed := {};
      var todo := persisted.Keys;
      while todo != {}
        invariant todo <= persisted.Keys
        invariant removed == set code | code in persisted && code !in todo && code !in records
      {
        var code :| code in todo;
        if code !in records { removed := removed + {code}; }
        todo := todo - {code};
      }
    }

    /** Writes the changes one by one into a copy of the bucket, which the
        transaction commits or drops as a whole. */
    method Apply(changed: Store, removed: set<Code>, store: Store) returns (out: Store)
      ensures out == Applied(store, changed, removed)
    {
      out := store;
      var todo := changed.Keys;
      while todo != {}
        invariant todo <= changed.Keys
        invariant out == store + (map code | code in changed && code !in todo :: changed[code])
      {
        var code :| code in todo;
        out := out[code := changed[code]];
        todo := todo - {code};
      }
      assert (map code | code in changed && code !in todo :: changed[code]) == changed;
      ghost var put := out;
      var gone := removed;
      while gone != {}
        invariant gone <= removed && out == put - (removed - gone)
      {
        var code :| code in gone;
        out := out - {code};
        gone := gone - {code};
      }
    }

    /** `flushState`. A flush that does not fail leaves the bucket equal to the
        snapshot; a failed transaction changes nothing. */
    method Flush(records: Store, now: Time, force: bool, commits: bool) returns (r: Report)
      requires Valid() && forall code :: code in records ==> records[code] != []
      modifies this
      ensures Valid()
      ensures r != Failed ==> bucket == records
      ensures r == Failed ==>
                !commits && bucket == old(bucket) && persisted == old(persisted) && stamp == old(stamp)
                && lastFlush == old(lastFlush)
      ensures r == Skipped ==>
                stamp == old(stamp) && lastFlush == old(lastFlush) && now - lastFlush < HEARTBEAT && !force
                && records == old(bucket)
      ensures r == Written ==> stamp == Some(now / MILLI) && lastFlush == now
      ensures !force && records == old(bucket) && now - old(lastFlush) < HEARTBEAT ==> r == Skipped
      ensures commits && (force || records != old(bucket) || now - old(lastFlush) >= HEARTBEAT) ==> r == Written
    {
      hide Changed, Removed, Applied;
      var changed := FindChanged(records);
      var removed := FindRemoved(records);
      DiffIsOverwrite(persisted, records);
      NothingToWrite(persisted, records);
      if !force && |changed| == 0 && |removed| == 0 && now - lastFlush < HEARTBEAT {
        return Skipped;
      }
      if !commits { return Failed; }
      var written := Apply(changed, removed, bucket);
      bucket, stamp := written, Some(now / MILLI);
      persisted := Apply(changed, removed, persisted);
      lastFlush := now;
      r := Written;
    }
  }
}
