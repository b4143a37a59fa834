/** The open handle and the record iterator (basisdb-wal/src/wal.rs). What the file system
    answers is given to each method; the files themselves are a field. */
module WalHandle {
  import opened Types
  import opened WalFormat
  import opened WalSegment
  import opened WalLog

  class Wal {
    const crc: Checksum
    const options: Options
    var segments: seq<Bytes>
    var activeId: nat
    var activeLen: nat
    var totalLen: nat
    var poisoned: bool
    /** How much of the active file is on stable storage. */
    ghost var synced: nat
    /** The records the files hold, segment by segment. */
    ghost var records: seq<seq<Record>>

    ghost function Value(): State
      reads this
    {
      State(options, segments, activeId, activeLen, totalLen, synced, poisoned)
    }

    ghost predicate Valid()
      reads this
    {
      Holds(crc, Value(), records)
    }

    /** Takes over a repaired directory, `synced` bytes of whose last file are stable. */
    constructor (crc: Checksum, options: Options, segments: seq<Bytes>, total: nat, ghost synced: nat,
                 ghost records: seq<seq<Record>>)
      requires segments != []
      requires var last := |segments[|segments| - 1]|;
               Holds(crc, State(options, segments, |segments| - 1, last, total, synced, false), records)
      ensures Valid() && this.crc == crc && this.records == records
      ensures var last := |segments[|segments| - 1]|;
              Value() == State(options, segments, |segments| - 1, last, total, synced, false)
    {
      this.crc := crc;
      this.options := options;
      this.segments := segments;
      activeId := |segments| - 1;
      activeLen := |segments[|segments| - 1]|;
      totalLen := total;
      poisoned := false;
      this.synced := synced;
      this.records := records;
    }

    method Sync(fails: bool) returns (r: Result<Unit>)
      requires Valid()
      modifies this
      ensures Valid() && records == old(records)
      ensures (Value(), r) == WalLog.Sync(old(Value()), fails)
    {
      HoldsSized(crc, Value(), records);
      SyncKeeps(crc, Value(), records, fails);
      if poisoned {
        return Err(Poisoned);
      }
      if fails {
        poisoned := true;
        return Err(Io);
      }
      synced := |segments[activeId]|;
      r := Ok(Unit);
    }

    method RotateIfNeeded(recordLen: nat, f: Faults) returns (r: Result<Unit>)
      requires Valid()
      modifies this
      ensures Valid() && AllStored(crc, records) == AllStored(crc, old(records))
      ensures (Value(), r) == WalLog.RotateIfNeeded(old(Value()), recordLen, f)
      ensures totalLen == old(totalLen)
      ensures r.Ok? ==> activeLen + recordLen <= options.segmentSize && poisoned == old(poisoned)
    {
      hide Holds, AllStored;
      HoldsSized(crc, Value(), records);
      ghost var w, rs := Value(), records;
      r := Ok(Unit);
      if recordLen > options.segmentSize {
        r := Err(RecordTooLarge(recordLen, options.segmentSize));
      } else if activeLen + recordLen > U64_MAX {
        r := Err(RecordTooLarge(U64_MAX, options.segmentSize));
      } else if activeLen != 0 && activeLen + recordLen > options.segmentSize {
        r := this.Sync(f.rotateSync);
        if r.Ok? {
          if activeId + 1 > U64_MAX {
            r := Err(SegmentIdExhausted);
          } else if f.open {
            r := Err(Io);
          } else {
            if |segments| == activeId + 1 {
              segments := segments + [[]];
            }
            if f.dirSync {
              r := Err(Io);
            } else {
              activeId := activeId + 1;
              activeLen := 0;
              synced := 0;
            }
          }
        }
      }
      assert (Value(), r) == WalLog.RotateIfNeeded(w, recordLen, f);
      records := RotateKeeps(crc, w, rs, recordLen, f);
    }

    method WriteOrPoison(encoded: Bytes, failsAfter: Option<nat>) returns (r: Result<Unit>)
      requires Wellformed(Value())
      modifies this`segments, this`poisoned
      ensures Wellformed(Value()) && (Value(), r) == WalLog.WriteOrPoison(old(Value()), encoded, failsAfter)
      ensures old(segments)[activeId] <= segments[activeId] <= old(segments)[activeId] + encoded
      ensures r.Ok? <==> segments[activeId] == old(segments)[activeId] + encoded
      ensures segments == old(segments)[activeId := segments[activeId]] && poisoned == (old(poisoned) || r.Err?)
    {
      if failsAfter.Some? && encoded != [] {
        var written := Min(failsAfter.value, |encoded| - 1);
        segments := segments[activeId := segments[activeId] + encoded[..written]];
        poisoned := true;
        return Err(Io);
      }
      segments := segments[activeId := segments[activeId] + encoded];
      r := Ok(Unit);
    }

    /** Appends a record and says where. */
    method Append(kind: Kind, payload: Bytes, f: Faults) returns (r: Result<Lsn>)
      requires Valid()
      modifies this
      ensures Valid()
      ensures (Value(), r) == WalLog.Append(crc, old(Value()), Record(kind, payload), f)
      ensures r.Ok? ==>
                AllStored(crc, records) == AllStored(crc, old(records)) + [StoredRecord(r.value, Record(kind, payload))]
      ensures r.Err? && !poisoned ==> AllStored(crc, records) == AllStored(crc, old(records))
    {
      hide Holds, AllStored, WalLog.RotateIfNeeded, Encoded;
      HoldsSized(crc, Value(), records);
      if poisoned {
        return Err(Poisoned);
      }
      if |payload| > U32_MAX {
        return Err(PayloadTooLarge(|payload|));
      }
      var recordLen := HEADER_LEN + |payload|;
      var nextTotal := totalLen + recordLen;
      if nextTotal > U64_MAX {
        return Err(RecordTooLarge(U64_MAX, U64_MAX));
      }
      if nextTotal > options.maxSize {
        return Err(WalFull(nextTotal, options.maxSize));
      }
      var rotated := this.RotateIfNeeded(recordLen, f);
      if rotated.Err? {
        return Err(rotated.error);
      }
      r := this.PutRecord(kind, payload, f);
    }

    /** The second half of an append, once the record is known to fit. */
    method PutRecord(kind: Kind, payload: Bytes, f: Faults) returns (r: Result<Lsn>)
      requires Valid() && !poisoned && |payload| <= U32_MAX
      requires activeLen + HEADER_LEN + |payload| <= options.segmentSize
          && totalLen + HEADER_LEN + |payload| <= options.maxSize
      modifies this
      ensures Valid()
      ensures Wellformed(old(Value())) && (Value(), r) == WalLog.Write(crc, old(Value()), Record(kind, payload), f)
      ensures r.Ok? ==>
                AllStored(crc, records) == AllStored(crc, old(records)) + [StoredRecord(r.value, Record(kind, payload))]
      ensures r.Err? ==> poisoned
    {
      hide Holds, AllStored, Encoded;
      ghost var w, rs := Value(), records;
      HoldsSized(crc, w, rs);
      var encoded := EncodeRecord(crc, kind, payload);
      var lsn := Lsn(activeId, activeLen);
      var written := this.WriteOrPoison(encoded.value, f.write);
      records := WriteKeeps(crc, w, rs, Record(kind, payload), f);
      if written.Err? {
        return Err(written.error);
      }
      activeLen := activeLen + |encoded.value|;
      totalLen := totalLen + |encoded.value|;
      assert Value() == Put(crc, w, Record(kind, payload));
      r := Ok(lsn);
      if options.syncOnAppend {
        var done := this.Sync(f.sync);
        if done.Err? {
          r := Err(done.error);
        }
      }
    }
  }

  /** Opens a directory: refuses sizes that cannot hold a header and a gap in the segment
      ids, repairs the last segment, and refuses a log past its limit. */
  method OpenDir(crc: Checksum, dir: map<nat, Bytes>, options: Options, stable: nat) returns (r: Result<State>)
    ensures forall n: nat :: Gapless(dir.Keys, n) ==> r == Open(crc, Listed(dir, n), options, stable)
    ensures (forall n: nat :: !Gapless(dir.Keys, n)) ==>
              r.Err? && (r.error.SegmentTooSmall?
                         || (r.error.MissingSegment? && Gap(dir.Keys, r.error.expected, r.error.found)))
  {
    hide Recover, SumLen;
    if options.segmentSize < HEADER_LEN || options.maxSize < HEADER_LEN {
      return Err(SegmentTooSmall(Min(options.segmentSize, options.maxSize), HEADER_LEN));
    }
    var listed := ListSegments(dir);
    if listed.Err? {
      GapIsGap(dir.Keys, listed.error.expected, listed.error.found);
      return Err(listed.error);
    }
    forall n: nat | Gapless(dir.Keys, n) ensures Listed(dir, n) == listed.value {
      OneLength(dir.Keys, n, |listed.value|);
    }
    var recovered := RecoverDir(crc, listed.value, options.segmentSize);
    if recovered.Err? {
      return Err(recovered.error);
    }
    var segments := recovered.value;
    if segments == [] {
      return Err(SegmentIdExhausted);
    }
    var total := TotalLen(segments);
    if total.Err? {
      return Err(total.error);
    }
    if total.value > options.maxSize {
      return Err(WalFull(total.value, options.maxSize));
    }
    var last := |segments[|segments| - 1]|;
    var synced := StableLen(listed.value, last, stable);
    r := Ok(State(options, segments, |segments| - 1, last, total.value, synced, false));
  }

  ghost function Listed(dir: map<nat, Bytes>, n: nat): seq<Bytes>
    requires Gapless(dir.Keys, n)
  {
    seq(n, i requires 0 <= i < n => assert i in dir.Keys; dir[i])
  }

  lemma OneLength(keys: set<nat>, m: nat, n: nat)
    requires Gapless(keys, m) && Gapless(keys, n)
    ensures m == n
  {
    assert m < n ==> m in keys;
    assert n < m ==> n in keys;
  }

  lemma GapIsGap(keys: set<nat>, expected: nat, found: nat)
    requires Gap(keys, expected, found)
    ensures forall n: nat :: !Gapless(keys, n)
  {
    forall n: nat ensures !Gapless(keys, n) {
      assert expected !in keys && found in keys;
    }
  }

  // ----- Streaming -----

  /** The records of the log in order; stops for good at the first error. */
  class Records {
    const crc: Checksum
    const segments: seq<Bytes>
    const segmentSize: nat
    /** The next segment to open, and the reader's segment and offset, if one is open. */
    var nextId: nat
    var reader: Option<(nat, nat)>
    var done: bool

    ghost predicate Valid()
      reads this
    {
      nextId <= |segments| && (reader.Some? ==>
                               reader.value.0 < |segments| && reader.value.1 <= |segments[reader.value.0]|)
    }

    /** What is still to come. */
    ghost function Remaining(): (seq<StoredRecord>, Option<WalError>)
      requires Valid()
      reads this
    {
      if done then ([], None)
      else if reader.None? then StreamAll(crc, segments, nextId, segmentSize)
      else StreamThen(crc, segments, reader.value.0, reader.value.1, nextId, segmentSize)
    }

    constructor (crc: Checksum, segments: seq<Bytes>, segmentSize: nat)
      ensures Valid() && this.crc == crc
      ensures Remaining() == StreamAll(crc, segments, 0, segmentSize)
    {
      this.crc := crc;
      this.segments := segments;
      this.segmentSize := segmentSize;
      nextId := 0;
      reader := None;
      done := false;
    }

    /** Yields the next record, or the error that ends the stream, or nothing. */
    method Next() returns (r: Option<Result<StoredRecord>>)
      requires Valid()
      modifies this
      ensures Valid()
      ensures var (items, error) := old(Remaining());
              if items != [] then r == Some(Ok(items[0])) && Remaining() == (items[1..], error)
              else if error.Some? then r == Some(Err(error.value)) && Remaining() == ([], None)
              else r == None && Remaining() == ([], None)
    {
      if done {
        return None;
      }
      while true
        invariant Valid() && !done && Remaining() == old(Remaining())
        decreases |segments| - nextId, if reader.Some? then 1 + |segments[reader.value.0]| - reader.value.1 else 0
      {
        if reader.Some? {
          var (id, offset) := reader.value;
          StreamStep(crc, segments, id, offset, nextId, segmentSize);
          match ReadOne(crc, segments[id], id, offset, segmentSize)
          case Ok(Whole(record, next)) =>
            reader := Some((id, next));
            return Some(Ok(StoredRecord(Lsn(id, offset), record)));
          case Ok(Eof) =>
            reader := None;
          case Ok(Incomplete) =>
            done := true;
            return Some(Err(CorruptRecord(Lsn(id, offset), IncompleteRecord)));
          case Err(e) =>
            done := true;
            return Some(Err(e));
        } else if nextId < |segments| {
          reader := Some((nextId, 0));
          nextId := nextId + 1;
        } else {
          done := true;
          return None;
        }
      }
    }
  }

  /** The rest of one segment, then the segments from `nextId` on. */
  function StreamThen(crc: Checksum, segments: seq<Bytes>, id: nat, offset: nat, nextId: nat,
                      segmentSize: nat): (seq<StoredRecord>, Option<WalError>)
    requires id < |segments| && offset <= |segments[id]| && nextId <= |segments|
  {
    var (items, error) := Stream(crc, segments[id], id, offset, segmentSize);
    if error.Some? then (items, error)
    else
      var (rest, end) := StreamAll(crc, segments, nextId, segmentSize);
      (items + rest, end)
  }

  /** One record less to come, or the end of the segment, or the error that ends it all. */
  lemma StreamStep(crc: Checksum, segments: seq<Bytes>, id: nat, offset: nat, nextId: nat, segmentSize: nat)
    requires id < |segments| && offset <= |segments[id]| && nextId <= |segments|
    ensures var (items, error) := StreamThen(crc, segments, id, offset, nextId, segmentSize);
            var one := ReadOne(crc, segments[id], id, offset, segmentSize);
            && (one.Err? ==> items == [] && error == Some(one.error))
            && (one == Ok(Eof) ==> (items, error) == StreamAll(crc, segments, nextId, segmentSize))
            && (one == Ok(Incomplete) ==>
                  items == [] && error == Some(CorruptRecord(Lsn(id, offset), IncompleteRecord)))
            && (one.Ok? && one.value.Whole? ==>
                  && items != [] && items[0] == StoredRecord(Lsn(id, offset), one.value.record)
                  && one.value.next <= |segments[id]|
                  && StreamThen(crc, segments, id, one.value.next, nextId, segmentSize) == (items[1..], error))
  {
    hide StreamAll;
    var rest := StreamAll(crc, segments, nextId, segmentSize).0;
    assert [] + rest == rest;
    var one := ReadOne(crc, segments[id], id, offset, segmentSize);
    if one.Ok? && one.value.Whole? {
      var later := Stream(crc, segments[id], id, one.value.next, segmentSize).0;
      var first := StoredRecord(Lsn(id, offset), one.value.record);
      assert ([first] + later)[1..] == later && ([first] + later + rest)[1..] == later + rest;
    }
  }
}
