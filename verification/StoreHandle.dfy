/** The store object (basisdb-node/src/store.rs). */
module StoreHandle {
  import opened RaftCore
  import opened Store
  import SR = StoreRun
  import W = WalFormat
  import WalLog
  import opened WalHandle

  class DeltaStore {
    const codec: Codec
    const wal: Wal
    var durable: Persistent

    ghost function Value(): SR.RaftStore
      reads this, wal
    {
      SR.RaftStore(wal.Value(), durable)
    }

    constructor (codec: Codec, wal: Wal, durable: Persistent)
      ensures this.codec == codec && this.wal == wal && this.durable == durable
    {
      this.codec := codec;
      this.wal := wal;
      this.durable := durable;
    }

    method Save(current: Persistent, f: SR.SaveFaults) returns (r: Outcome<WalLog.Unit>)
      requires wal.Valid()
      modifies this, wal
      ensures wal.Valid()
      ensures WalLog.Wellformed(old(wal.Value())) && (Value(), r) == SR.Save(wal.crc, codec, old(Value()), current, f)
    {
      hide WalLog.Holds, WalLog.Append, WalLog.AllStored, DeltaFor;
      WalLog.HoldsSized(wal.crc, wal.Value(), wal.records);
      if current.log.snapshotIndex != durable.log.snapshotIndex {
        return Failed(SnapshotUnsupported);
      }
      var delta := this.Difference(current);
      var appended := wal.Append(RAFT_STATE_KIND, codec.encode(delta), f.append);
      if appended.Err? {
        return Failed(WalFailed(appended.error));
      }
      var synced := wal.Sync(f.sync);
      if synced.Err? {
        return Failed(WalFailed(synced.error));
      }
      durable := current;
      r := Done(WalLog.Unit);
    }

    method Difference(current: Persistent) returns (delta: Delta)
      ensures delta == DeltaFor(durable, current)
    {
      var truncateAfter := CommonPrefixLoop(durable, current);
      var entries := current.log.Slice(truncateAfter + 1, current.log.LastIndex());
      delta := Delta(current.term, current.votedFor, current.bootstrap, truncateAfter, entries);
    }

    /** Replays every record of the log into the durable copy; stops at the first that does
        not belong, does not decode or does not fit. */
    method Recover() returns (r: Outcome<WalLog.Unit>)
      requires wal.Valid()
      modifies this
      ensures var (records, error) := WalLog.StreamAll(wal.crc, wal.segments, 0, wal.options.segmentSize);
              match SR.Replay(codec, old(durable), records)
              case Failed(e) => r == Failed(e)
              case Done(p) =>
                if error.Some? then r == Failed(WalFailed(error.value)) else r == Done(WalLog.Unit) && durable == p
    {
      hide ApplyDelta, WalLog.StreamAll, StreamThen, WalLog.Holds;
      var items := new Records(wal.crc, wal.segments, wal.options.segmentSize);
      ghost var (records, error) := items.Remaining();
      ghost var seen := 0;
      ghost var start := durable;
      while true
        invariant fresh(items) && items.Valid() && seen <= |records|
        invariant items.Remaining() == (records[seen..], error)
        invariant SR.Replay(codec, start, records[..seen]) == Done(durable)
        invariant wal.segments == old(wal.segments)
        decreases |records| - seen
      {
        var next := items.Next();
        if next.None? {
          assert records[..seen] == records;
          return Done(WalLog.Unit);
        }
        if next.value.Err? {
          assert records[..seen] == records;
          return Failed(WalFailed(next.value.error));
        }
        var record := next.value.value.record;
        assert records[..seen + 1][..seen] == records[..seen];
        seen := seen + 1;
        if record.kind != RAFT_STATE_KIND {
          ReplayFails(codec, start, records, seen);
          return Failed(UnexpectedKind(record.kind));
        }
        var delta := codec.decode(record.payload);
        if delta.None? {
          ReplayFails(codec, start, records, seen);
          return Failed(DecodeFailed);
        }
        var applied := ApplyDeltaLoop(durable, delta.value);
        if applied.Failed? {
          ReplayFails(codec, start, records, seen);
          return Failed(applied.error);
        }
        durable := applied.value;
      }
    }
  }

  lemma {:induction false} ReplayFails(codec: Codec, state: Persistent, records: seq<W.StoredRecord>, k: nat)
    requires k <= |records| && SR.Replay(codec, state, records[..k]).Failed?
    ensures SR.Replay(codec, state, records) == SR.Replay(codec, state, records[..k])
  {
    if k < |records| {
      var init := records[..|records| - 1];
      assert init[..k] == records[..k];
      ReplayFails(codec, state, init, k);
    } else {
      assert records[..k] == records;
    }
  }
}
