/** The segmented log as a value (basisdb-wal/src/wal.rs): what append, sync, rotation and
    reopening make of it when the file system may fail, and what a crash may leave. */
module WalLog {
  import opened Types
  import opened WalFormat
  import opened WalSegment

  datatype Options = Options(segmentSize: nat, maxSize: nat, syncOnAppend: bool)

  /** `segments` are the files; the first `synced` bytes of the active one, and all of the
      earlier ones, are on stable storage. */
  datatype State = State(
    options: Options, segments: seq<Bytes>, active: nat, activeLen: nat, totalLen: nat, synced: nat, poisoned: bool)

  /** Which file-system calls of one append fail; `write` says after how many bytes. */
  datatype Faults = Faults(rotateSync: bool, open: bool, dirSync: bool, write: Option<nat>, sync: bool)

  datatype Unit = Unit

  predicate Wellformed(w: State) {
    w.active < |w.segments|
  }

  function Sync(w: State, fails: bool): (r: (State, Result<Unit>))
    requires Wellformed(w)
    ensures Wellformed(r.0)
  {
    if w.poisoned then (w, Err(Poisoned))
    else if fails then (w.(poisoned := true), Err(Io))
    else (w.(synced := |w.segments[w.active]|), Ok(Unit))
  }

  /** Moves on to a fresh segment when the record does not fit in the active one. When the
      directory cannot be synced the new, empty file is left behind. */
  function RotateIfNeeded(w: State, recordLen: nat, f: Faults): (r: (State, Result<Unit>))
    requires Wellformed(w)
    ensures Wellformed(r.0)
  {
    if recordLen > w.options.segmentSize then (w, Err(RecordTooLarge(recordLen, w.options.segmentSize)))
    else if w.activeLen + recordLen > U64_MAX then (w, Err(RecordTooLarge(U64_MAX, w.options.segmentSize)))
    else if w.activeLen != 0 && w.activeLen + recordLen > w.options.segmentSize then
      var (synced, r) := Sync(w, f.rotateSync);
      if r.Err? then (synced, r)
      else if w.active + 1 > U64_MAX then (synced, Err(SegmentIdExhausted))
      else if f.open then (synced, Err(Io))
      else
        var created := synced.(segments := if |w.segments| == w.active + 1 then w.segments + [[]] else w.segments);
        if f.dirSync then (created, Err(Io))
        else (created.(active := w.active + 1, activeLen := 0, synced := 0), Ok(Unit))
    else (w, Ok(Unit))
  }

  /** Writes at the end of the active file; a failed write leaves part of the bytes and
      poisons the handle. */
  function WriteOrPoison(w: State, encoded: Bytes, failsAfter: Option<nat>): (r: (State, Result<Unit>))
    requires Wellformed(w)
    ensures Wellformed(r.0)
  {
    var file := w.segments[w.active];
    if failsAfter.Some? && encoded != [] then
      var written := Min(failsAfter.value, |encoded| - 1);
      (w.(segments := w.segments[w.active := file + encoded[..written]], poisoned := true), Err(Io))
    else (w.(segments := w.segments[w.active := file + encoded]), Ok(Unit))
  }

  /** The record in the active file, counted but not yet synced. */
  function Put(crc: Checksum, w: State, record: Record): (w': State)
    requires Wellformed(w) && |record.payload| <= U32_MAX
    ensures Wellformed(w')
  {
    var encoded := Encoded(crc, record);
    w.(segments := w.segments[w.active := w.segments[w.active] + encoded],
       activeLen := w.activeLen + |encoded|, totalLen := w.totalLen + |encoded|)
  }

  function Write(crc: Checksum, w: State, record: Record, f: Faults): (r: (State, Result<Lsn>))
    requires Wellformed(w) && |record.payload| <= U32_MAX
    ensures Wellformed(r.0)
  {
    var (written, r) := WriteOrPoison(w, Encoded(crc, record), f.write);
    if r.Err? then (written, Err(r.error))
    else if w.options.syncOnAppend then
      var (w', r') := Sync(Put(crc, w, record), f.sync);
      (w', if r'.Err? then Err(r'.error) else Ok(Lsn(w.active, w.activeLen)))
    else (Put(crc, w, record), Ok(Lsn(w.active, w.activeLen)))
  }

  function Append(crc: Checksum, w: State, record: Record, f: Faults): (r: (State, Result<Lsn>))
    requires Wellformed(w)
    ensures Wellformed(r.0)
  {
    if w.poisoned then (w, Err(Poisoned))
    else if |record.payload| > U32_MAX then (w, Err(PayloadTooLarge(|record.payload|)))
    else
      var recordLen := HEADER_LEN + |record.payload|;
      var total := w.totalLen + recordLen;
      if total > U64_MAX then (w, Err(RecordTooLarge(U64_MAX, U64_MAX)))
      else if total > w.options.maxSize then (w, Err(WalFull(total, w.options.maxSize)))
      else
        var (rotated, r) := RotateIfNeeded(w, recordLen, f);
        if r.Err? then (rotated, Err(r.error)) else Write(crc, rotated, record, f)
  }

  /** How much of the last file, `len` bytes long after the repair, is on stable storage when
      `stable` bytes of it were before: a file that is cut is synced, a clean one is not. */
  function StableLen(listed: seq<Bytes>, len: nat, stable: nat): nat {
    if listed != [] && |listed[|listed| - 1]| == len then Min(stable, len) else len
  }

  /** Opens a listed directory: repairs it and takes its last segment as the active one.
      `stable` says how much of the last file had reached stable storage. */
  function Open(crc: Checksum, listed: seq<Bytes>, options: Options, stable: nat): Result<State> {
    if options.segmentSize < HEADER_LEN || options.maxSize < HEADER_LEN then
      Err(SegmentTooSmall(Min(options.segmentSize, options.maxSize), HEADER_LEN))
    else
      match Recover(crc, listed, options.segmentSize)
      case Err(e) => Err(e)
      case Ok(segments) =>
        var total := SumLen(segments);
        if segments == [] then Err(SegmentIdExhausted)
        else if total > U64_MAX then Err(WalFull(U64_MAX, U64_MAX))
        else if total > options.maxSize then Err(WalFull(total, options.maxSize))
        else
          var last := |segments[|segments| - 1]|;
          Ok(State(options, segments, |segments| - 1, last, total, StableLen(listed, last, stable), false))
  }

  /** Every record of the segments from `id` on, and the error that stops the stream. */
  function StreamAll(crc: Checksum, segments: seq<Bytes>, id: nat, segmentSize: nat): (seq<StoredRecord>,
      Option<WalError>)
    requires id <= |segments|
    decreases |segments| - id
  {
    if id == |segments| then ([], None)
    else
      var (items, error) := Stream(crc, segments[id], id, 0, segmentSize);
      if error.Some? then (items, error)
      else
        var (rest, end) := StreamAll(crc, segments, id + 1, segmentSize);
        (items + rest, end)
  }

  // ----- What the log holds -----

  ghost predicate AllEncodable(rs: seq<seq<Record>>) {
    forall i :: 0 <= i < |rs| ==> Encodable(rs[i])
  }

  ghost function AllStored(crc: Checksum, rs: seq<seq<Record>>): seq<StoredRecord>
    requires AllEncodable(rs)
  {
    if rs == [] then []
    else AllStored(crc, rs[..|rs| - 1]) + Stored(crc, |rs| - 1, rs[|rs| - 1])
  }

  ghost function TotalFrames(crc: Checksum, rs: seq<seq<Record>>): nat
    requires AllEncodable(rs)
  {
    if rs == [] then 0 else TotalFrames(crc, rs[..|rs| - 1]) + |Frames(crc, rs[|rs| - 1])|
  }

  ghost predicate Sized(options: Options) {
    HEADER_LEN <= options.segmentSize <= U64_MAX && HEADER_LEN <= options.maxSize <= U64_MAX
  }

  ghost predicate AllFit(crc: Checksum, rs: seq<seq<Record>>, segmentSize: nat)
    requires AllEncodable(rs)
  {
    forall i :: 0 <= i < |rs| ==> |Frames(crc, rs[i])| <= segmentSize
  }

  /** The first `n` files are exactly the first `n` groups of records. */
  ghost predicate Exact(crc: Checksum, segments: seq<Bytes>, rs: seq<seq<Record>>, n: nat)
    requires AllEncodable(rs) && n <= |rs| && n <= |segments|
  {
    forall i :: 0 <= i < n ==> segments[i] == Frames(crc, rs[i])
  }

  /** Segment by segment the files hold exactly the records `rs`; only a poisoned log may end
      in part of one more. At most one empty file follows the active segment. */
  ghost predicate Holds(crc: Checksum, w: State, rs: seq<seq<Record>>) {
    && Sized(w.options) && AllEncodable(rs) && |rs| == w.active + 1
    && (|w.segments| == |rs| || (|w.segments| == |rs| + 1 && w.segments[|rs|] == []))
    && AllFit(crc, rs, w.options.segmentSize)
    && Exact(crc, w.segments, rs, w.active)
    && ActiveHolds(crc, w, rs[w.active])
    && w.totalLen == TotalFrames(crc, rs) <= w.options.maxSize
  }

  ghost predicate ActiveHolds(crc: Checksum, w: State, last: seq<Record>)
    requires Wellformed(w) && Encodable(last)
  {
    var file := w.segments[w.active];
    && w.activeLen == |Frames(crc, last)| <= |file| && w.synced <= w.activeLen
    && file[..w.activeLen] == Frames(crc, last)
    && (if w.poisoned then TornTail(crc, file[w.activeLen..], w.activeLen, w.options.segmentSize)
        else |file| == w.activeLen)
  }

  /** A healthy log's files are exactly its records. */
  lemma HealthyExact(crc: Checksum, w: State, rs: seq<seq<Record>>)
    requires Holds(crc, w, rs) && !w.poisoned
    ensures w.segments[w.active] == Frames(crc, rs[w.active]) && Exact(crc, w.segments, rs, |rs|)
  {
    hide Frames, TotalFrames, AllFit;
    var file := w.segments[w.active];
    assert file[..|file|] == file;
  }

  // ----- Appending -----

  lemma SyncKeeps(crc: Checksum, w: State, rs: seq<seq<Record>>, fails: bool)
    requires Holds(crc, w, rs)
    ensures Holds(crc, Sync(w, fails).0, rs)
    ensures Sync(w, fails).1.Ok? ==> Sync(w, fails).0.synced == w.activeLen
  {
    hide Frames, TotalFrames;
  }

  lemma AllStoredGrows(crc: Checksum, rs: seq<seq<Record>>)
    requires AllEncodable(rs)
    ensures AllEncodable(rs + [[]])
    ensures AllStored(crc, rs + [[]]) == AllStored(crc, rs)
    ensures TotalFrames(crc, rs + [[]]) == TotalFrames(crc, rs)
  {
    assert (rs + [[]])[..|rs|] == rs;
  }

  /** Rotation adds at most an empty segment and leaves the records alone. */
  lemma RotateKeeps(crc: Checksum, w: State, rs: seq<seq<Record>>, recordLen: nat, f: Faults)
      returns (rs': seq<seq<Record>>)
    requires Holds(crc, w, rs)
    ensures var (w', r) := RotateIfNeeded(w, recordLen, f);
            && Holds(crc, w', rs') && AllStored(crc, rs') == AllStored(crc, rs)
            && w'.totalLen == w.totalLen && w'.options == w.options
            && (r.Ok? ==> w'.activeLen + recordLen <= w.options.segmentSize && w'.poisoned == w.poisoned)
            && (r.Ok? ==> || (w' == w && rs' == rs)
                          || (w'.activeLen == 0 && w'.synced == 0 && rs' == rs + [[]] && w'.active == w.active + 1))
            && (r.Err? ==> rs' == rs && w'.active == w.active && (w'.synced == w.synced || w'.synced == w'.activeLen))
  {
    HoldsSized(crc, w, rs);
    SyncKeeps(crc, w, rs, f.rotateSync);
    hide Holds, AllStored;
    var (w', r) := RotateIfNeeded(w, recordLen, f);
    rs' := rs;
    if w' != w {
      var synced := Sync(w, f.rotateSync).0;
      if r.Ok? {
        rs' := rs + [[]];
        FreshSegment(crc, w, rs, w');
      } else if w'.segments != w.segments {
        SpareSegment(crc, synced, rs, w');
      }
    }
  }

  lemma SpareSegment(crc: Checksum, w: State, rs: seq<seq<Record>>, w': State)
    requires Holds(crc, w, rs) && |w.segments| == w.active + 1 && w' == w.(segments := w.segments + [[]])
    ensures Holds(crc, w', rs)
  {
    hide Frames, TotalFrames, AllFit, TornTail;
  }

  lemma FreshSegment(crc: Checksum, w: State, rs: seq<seq<Record>>, w': State)
    requires Holds(crc, w, rs) && !w.poisoned
    requires w' == w.(segments := if |w.segments| == w.active + 1 then w.segments + [[]] else w.segments,
                      active := w.active + 1, activeLen := 0, synced := 0)
    ensures Holds(crc, w', rs + [[]])
    ensures AllStored(crc, rs + [[]]) == AllStored(crc, rs)
  {
    AllStoredGrows(crc, rs);
    HealthyExact(crc, w, rs);
    EmptySegment(crc, rs, w.options.segmentSize);
    hide Frames, TotalFrames, AllFit, TornTail, AllStored;
    assert w'.segments[w'.active] == [];
  }

  lemma EmptySegment(crc: Checksum, rs: seq<seq<Record>>, segmentSize: nat)
    requires AllEncodable(rs) && AllFit(crc, rs, segmentSize)
    ensures AllEncodable(rs + [[]]) && AllFit(crc, rs + [[]], segmentSize) && Frames(crc, []) == []
  {
    hide TotalFrames;
  }

  /** One more record in the last segment. */
  lemma GrowLast(crc: Checksum, rs: seq<seq<Record>>, record: Record) returns (rs': seq<seq<Record>>)
    requires AllEncodable(rs) && rs != [] && |record.payload| <= U32_MAX
    ensures rs' == rs[|rs| - 1 := rs[|rs| - 1] + [record]] && AllEncodable(rs')
    ensures var last := rs[|rs| - 1];
            && Frames(crc, last + [record]) == Frames(crc, last) + Encoded(crc, record)
            && TotalFrames(crc, rs') == TotalFrames(crc, rs) + HEADER_LEN + |record.payload|
            && AllStored(crc, rs') == AllStored(crc, rs) + [StoredRecord(Lsn(|rs| - 1, |Frames(crc, last)|), record)]
  {
    var last := rs[|rs| - 1];
    var grown := last + [record];
    assert grown[..|last|] == last;
    rs' := rs[|rs| - 1 := grown];
    assert rs'[..|rs| - 1] == rs[..|rs| - 1];
    assert AllStored(crc, rs')
        == AllStored(crc, rs[..|rs| - 1])
         + (Stored(crc, |rs| - 1, last) + [StoredRecord(Lsn(|rs| - 1, |Frames(crc, last)|), record)]);
  }

  lemma TornWrite(crc: Checksum, w: State, rs: seq<seq<Record>>, record: Record, f: Faults)
    requires Holds(crc, w, rs) && !w.poisoned && |record.payload| <= U32_MAX && f.write.Some?
    requires w.activeLen + HEADER_LEN + |record.payload| <= w.options.segmentSize
    ensures Holds(crc, Write(crc, w, record, f).0, rs) && Write(crc, w, record, f).0.poisoned
  {
    hide Frames, TotalFrames, AllFit, Encoded;
    var encoded, file := Encoded(crc, record), w.segments[w.active];
    var written := Min(f.write.value, |encoded| - 1);
    var torn := file + encoded[..written];
    assert torn[w.activeLen..] == encoded[..written] && torn[..w.activeLen] == file[..w.activeLen];
  }

  lemma PutKeeps(crc: Checksum, w: State, rs: seq<seq<Record>>, record: Record, rs': seq<seq<Record>>)
    requires Holds(crc, w, rs) && !w.poisoned && |record.payload| <= U32_MAX
    requires w.activeLen + HEADER_LEN + |record.payload| <= w.options.segmentSize
    requires w.totalLen + HEADER_LEN + |record.payload| <= w.options.maxSize
    requires rs' == rs[w.active := rs[w.active] + [record]] && AllEncodable(rs')
    requires Frames(crc, rs'[w.active]) == Frames(crc, rs[w.active]) + Encoded(crc, record)
    requires TotalFrames(crc, rs') == TotalFrames(crc, rs) + HEADER_LEN + |record.payload|
    ensures Holds(crc, Put(crc, w, record), rs')
  {
    HealthyExact(crc, w, rs);
    hide Frames, TotalFrames, Encoded, TornTail, AllFit, Exact;
    var w' := Put(crc, w, record);
    FitGrows(crc, rs, w.active, rs', w.options.segmentSize);
    ExactGrows(crc, w.segments, rs, w.active, w'.segments, rs');
    var grown := w.segments[w.active] + Encoded(crc, record);
    assert w'.segments[w'.active] == grown && grown[..|grown|] == grown;
    GrownHolds(crc, w', rs'[w.active]);
  }

  lemma GrownHolds(crc: Checksum, w: State, last: seq<Record>)
    requires Wellformed(w) && Encodable(last) && w.segments[w.active] == Frames(crc, last)
    requires w.activeLen == |Frames(crc, last)| && w.synced <= w.activeLen
    ensures ActiveHolds(crc, w, last)
  {
    hide Frames;
    var file := w.segments[w.active];
    assert file[..|file|] == file && file[|file|..] == [];
  }

  lemma FitGrows(crc: Checksum, rs: seq<seq<Record>>, k: nat, rs': seq<seq<Record>>, segmentSize: nat)
    requires AllEncodable(rs) && AllFit(crc, rs, segmentSize) && AllEncodable(rs')
    requires k < |rs| && |rs'| == |rs| && rs' == rs[k := rs'[k]] && |Frames(crc, rs'[k])| <= segmentSize
    ensures AllFit(crc, rs', segmentSize)
  {
    hide Frames;
  }

  lemma ExactGrows(crc: Checksum, segments: seq<Bytes>, rs: seq<seq<Record>>, k: nat, segments': seq<Bytes>,
                   rs': seq<seq<Record>>)
    requires AllEncodable(rs) && AllEncodable(rs') && k < |rs| == |rs'| && k < |segments| == |segments'|
    requires Exact(crc, segments, rs, k) && rs' == rs[k := rs'[k]] && segments' == segments[k := segments'[k]]
    ensures Exact(crc, segments', rs', k)
  {
    hide Frames;
  }

  lemma WriteKeeps(crc: Checksum, w: State, rs: seq<seq<Record>>, record: Record, f: Faults)
      returns (rs': seq<seq<Record>>)
    requires Holds(crc, w, rs) && !w.poisoned && |record.payload| <= U32_MAX
    requires w.activeLen + HEADER_LEN + |record.payload| <= w.options.segmentSize
    requires w.totalLen + HEADER_LEN + |record.payload| <= w.options.maxSize
    ensures var (w', r) := Write(crc, w, record, f);
            var added := AllStored(crc, rs) + [StoredRecord(Lsn(w.active, w.activeLen), record)];
            && Holds(crc, w', rs')
            && (r.Ok? ==> r.value == Lsn(w.active, w.activeLen) && AllStored(crc, rs') == added && !w'.poisoned)
            && (r.Err? ==> w'.poisoned)
            && (if f.write.Some? then rs' == rs
                else && rs' == rs[w.active := rs[w.active] + [record]] && AllStored(crc, rs') == added
                     && Holds(crc, Put(crc, w, record), rs'))
  {
    hide Holds, AllStored, Frames, TotalFrames, Encoded;
    HoldsLast(crc, w, rs);
    HoldsSized(crc, w, rs);
    if f.write.Some? {
      rs' := rs;
      TornWrite(crc, w, rs, record, f);
    } else {
      rs' := GrowLast(crc, rs, record);
      PutKeeps(crc, w, rs, record, rs');
      SyncKeeps(crc, Put(crc, w, record), rs', f.sync);
    }
  }

  lemma HoldsLast(crc: Checksum, w: State, rs: seq<seq<Record>>)
    requires Holds(crc, w, rs)
    ensures |rs| == w.active + 1 && AllEncodable(rs) && |Frames(crc, rs[w.active])| == w.activeLen
  {
    hide Frames, TotalFrames, AllFit, Exact;
  }

  lemma HoldsSized(crc: Checksum, w: State, rs: seq<seq<Record>>)
    requires Holds(crc, w, rs)
    ensures Wellformed(w) && Sized(w.options)
  {
  }

  // ----- Positions -----

  lemma {:induction false} FramesGrow(crc: Checksum, rs: seq<Record>, j: nat, k: nat)
    requires Encodable(rs) && j < k <= |rs|
    ensures |Frames(crc, rs[..j])| < |Frames(crc, rs[..k])|
    decreases k
  {
    FramesPrefix(crc, rs, k - 1);
    if j < k - 1 {
      FramesGrow(crc, rs, j, k - 1);
    }
  }

  /** Positions are issued in strictly increasing order. */
  lemma {:induction false} PositionsAscend(crc: Checksum, rs: seq<seq<Record>>, j: nat, k: nat)
    requires AllEncodable(rs) && j < k < |AllStored(crc, rs)|
    ensures AllStored(crc, rs)[j].lsn.Before(AllStored(crc, rs)[k].lsn)
    decreases |rs|
  {
    hide Frames, Stored;
    var init, last := rs[..|rs| - 1], rs[|rs| - 1];
    var m := |AllStored(crc, init)|;
    if k < m {
      PositionsAscend(crc, init, j, k);
    } else {
      StoredAt(crc, |rs| - 1, last, k - m);
      if j < m {
        PositionsBelow(crc, init, j);
      } else {
        StoredAt(crc, |rs| - 1, last, j - m);
        FramesGrow(crc, last, j - m, k - m);
      }
    }
  }

  lemma {:induction false} PositionsBelow(crc: Checksum, rs: seq<seq<Record>>, j: nat)
    requires AllEncodable(rs) && j < |AllStored(crc, rs)|
    ensures AllStored(crc, rs)[j].lsn.segmentId < |rs|
    decreases |rs|
  {
    var init, last := rs[..|rs| - 1], rs[|rs| - 1];
    var m := |AllStored(crc, init)|;
    if j < m {
      PositionsBelow(crc, init, j);
    } else {
      StoredAt(crc, |rs| - 1, last, j - m);
    }
  }

  /** Files within size, their total counted and within the limit; only a poisoned handle has
      more in its active file than it counts. */
  lemma SizesHold(crc: Checksum, w: State, rs: seq<seq<Record>>)
    requires Holds(crc, w, rs)
    ensures forall i :: 0 <= i < |w.segments| ==> |w.segments[i]| <= w.options.segmentSize
    ensures w.totalLen <= w.options.maxSize
    ensures SumLen(w.segments) == w.totalLen + (|w.segments[w.active]| - w.activeLen)
    ensures !w.poisoned ==> w.totalLen == SumLen(w.segments)
  {
    hide Frames, TotalFrames, Encoded;
    var file := w.segments[w.active];
    var counted := w.segments[..|rs|][w.active := file[..w.activeLen]];
    FramesSum(crc, rs, counted);
    SumLast(counted, w.segments[..|rs|]);
    if |w.segments| == |rs| + 1 {
      assert w.segments[..|w.segments| - 1] == w.segments[..|rs|];
    } else {
      assert w.segments[..|rs|] == w.segments;
    }
  }

  lemma SumLast(a: seq<Bytes>, b: seq<Bytes>)
    requires a != [] && |a| == |b| && a[..|a| - 1] == b[..|b| - 1]
    ensures SumLen(b) - SumLen(a) == |b[|b| - 1]| - |a[|a| - 1]|
  {
  }

  lemma {:induction false} FramesSum(crc: Checksum, rs: seq<seq<Record>>, segments: seq<Bytes>)
    requires AllEncodable(rs) && |segments| == |rs|
    requires forall i :: 0 <= i < |rs| ==> segments[i] == Frames(crc, rs[i])
    ensures SumLen(segments) == TotalFrames(crc, rs)
  {
    if rs != [] {
      FramesSum(crc, rs[..|rs| - 1], segments[..|rs| - 1]);
    }
  }
}
