/** Scanning and repairing segments (basisdb-wal/src/segment.rs). A directory is a map from
    segment id to file contents; a listed directory is the sequence of its segments. */
module WalSegment {
  import opened Types
  import opened WalFormat

  // ----- What a segment should hold -----

  ghost predicate Encodable(rs: seq<Record>) {
    forall k :: 0 <= k < |rs| ==> |rs[k].payload| <= U32_MAX
  }

  /** The bytes of records written one after the other. */
  ghost function Frames(crc: Checksum, rs: seq<Record>): Bytes
    requires Encodable(rs)
  {
    if rs == [] then [] else Frames(crc, rs[..|rs| - 1]) + Encoded(crc, rs[|rs| - 1])
  }

  /** The same records with the positions they were written at. */
  ghost function Stored(crc: Checksum, id: nat, rs: seq<Record>): (r: seq<StoredRecord>)
    requires Encodable(rs)
    ensures |r| == |rs|
  {
    if rs == [] then []
    else
      var init := rs[..|rs| - 1];
      Stored(crc, id, init) + [StoredRecord(Lsn(id, |Frames(crc, init)|), rs[|rs| - 1])]
  }

  lemma {:induction false} FramesPrefix(crc: Checksum, rs: seq<Record>, k: nat)
    requires Encodable(rs) && k <= |rs|
    ensures Frames(crc, rs[..k]) <= Frames(crc, rs)
    ensures k < |rs| ==> Frames(crc, rs[..k + 1]) == Frames(crc, rs[..k]) + Encoded(crc, rs[k])
    decreases |rs| - k
  {
    if k < |rs| {
      var next := rs[..k + 1];
      assert next[..|next| - 1] == rs[..k];
      FramesPrefix(crc, rs, k + 1);
    } else {
      assert rs[..k] == rs;
    }
  }

  lemma StoredPrefix(crc: Checksum, id: nat, rs: seq<Record>, k: nat)
    requires Encodable(rs) && k < |rs|
    ensures Stored(crc, id, rs[..k + 1])
        == Stored(crc, id, rs[..k]) + [StoredRecord(Lsn(id, |Frames(crc, rs[..k])|), rs[k])]
  {
    var next := rs[..k + 1];
    assert next[..|next| - 1] == rs[..k];
  }

  /** What may follow the whole records of a segment: nothing, or the start of one more. */
  ghost predicate TornTail(crc: Checksum, tail: Bytes, at: nat, segmentSize: nat) {
    tail == [] ||
    exists record: Record, cut: nat ::
      && |record.payload| <= U32_MAX && at + HEADER_LEN + |record.payload| <= segmentSize
      && cut < HEADER_LEN + |record.payload| && tail == Encoded(crc, record)[..cut]
  }

  // ----- Scanning -----

  datatype SegmentScan = Clean(len: nat) | IncompleteTail(len: nat)

  /** How far the records of a segment reach. */
  function Scan(crc: Checksum, data: Bytes, id: nat, offset: nat, segmentSize: nat): Result<SegmentScan>
    requires offset <= |data|
    decreases |data| - offset
  {
    match ReadOne(crc, data, id, offset, segmentSize)
    case Err(e) => Err(e)
    case Ok(Eof) => Ok(Clean(offset))
    case Ok(Incomplete) => Ok(IncompleteTail(offset))
    case Ok(Whole(_, next)) => Scan(crc, data, id, next, segmentSize)
  }

  method ValidLen(crc: Checksum, data: Bytes, id: nat, segmentSize: nat) returns (r: Result<SegmentScan>)
    ensures r == Scan(crc, data, id, 0, segmentSize)
  {
    var offset := 0;
    while true
      invariant offset <= |data|
      invariant Scan(crc, data, id, offset, segmentSize) == Scan(crc, data, id, 0, segmentSize)
      decreases |data| - offset
    {
      match ReadOne(crc, data, id, offset, segmentSize)
      case Err(e) => return Err(e);
      case Ok(Eof) => return Ok(Clean(offset));
      case Ok(Incomplete) => return Ok(IncompleteTail(offset));
      case Ok(Whole(_, next)) => offset := next;
    }
  }

  /** The records a reader yields from `offset` on, and the error it stops at, if any. */
  function Stream(crc: Checksum, data: Bytes, id: nat, offset: nat, segmentSize: nat): (seq<StoredRecord>,
      Option<WalError>)
    requires offset <= |data|
    decreases |data| - offset
  {
    match ReadOne(crc, data, id, offset, segmentSize)
    case Err(e) => ([], Some(e))
    case Ok(Eof) => ([], None)
    case Ok(Incomplete) => ([], Some(CorruptRecord(Lsn(id, offset), IncompleteRecord)))
    case Ok(Whole(record, next)) =>
      var (rest, error) := Stream(crc, data, id, next, segmentSize);
      ([StoredRecord(Lsn(id, offset), record)] + rest, error)
  }

  /** Reading at a record boundary gives the next record. */
  lemma NextFrame(crc: Checksum, rs: seq<Record>, tail: Bytes, id: nat, segmentSize: nat, k: nat)
    requires Encodable(rs) && k < |rs| && |Frames(crc, rs)| <= segmentSize <= U64_MAX
    ensures |Frames(crc, rs[..k])| <= |Frames(crc, rs)|
    ensures ReadOne(crc, Frames(crc, rs) + tail, id, |Frames(crc, rs[..k])|, segmentSize)
         == Ok(Whole(rs[k], |Frames(crc, rs[..k + 1])|))
  {
    hide ReadOne, Frames, Encoded;
    FramesPrefix(crc, rs, k);
    FramesPrefix(crc, rs, k + 1);
    var before, encoded := Frames(crc, rs[..k]), Encoded(crc, rs[k]);
    var after := Frames(crc, rs)[|before| + |encoded|..] + tail;
    assert Frames(crc, rs) + tail == before + encoded + after;
    ReadBack(crc, before, rs[k], after, id, segmentSize);
  }

  /** A scan stops exactly after the last whole record. */
  lemma {:induction false} ScanFrames(crc: Checksum, rs: seq<Record>, tail: Bytes, id: nat, segmentSize: nat, k: nat)
    requires Encodable(rs) && k <= |rs| && |Frames(crc, rs)| <= segmentSize <= U64_MAX
    requires TornTail(crc, tail, |Frames(crc, rs)|, segmentSize)
    ensures |Frames(crc, rs[..k])| <= |Frames(crc, rs)|
    ensures Scan(crc, Frames(crc, rs) + tail, id, |Frames(crc, rs[..k])|, segmentSize)
         == Ok(if tail == [] then Clean(|Frames(crc, rs)|) else IncompleteTail(|Frames(crc, rs)|))
    decreases |rs| - k
  {
    hide ReadOne, Frames, TornTail;
    FramesPrefix(crc, rs, k);
    if k < |rs| {
      NextFrame(crc, rs, tail, id, segmentSize, k);
      ScanFrames(crc, rs, tail, id, segmentSize, k + 1);
    } else {
      assert rs[..k] == rs;
      if tail != [] {
        TailRead(crc, Frames(crc, rs), tail, id, segmentSize);
      } else {
        assert Frames(crc, rs) + tail == Frames(crc, rs);
        EndRead(crc, Frames(crc, rs), id, segmentSize);
      }
    }
  }

  lemma TailRead(crc: Checksum, before: Bytes, tail: Bytes, id: nat, segmentSize: nat)
    requires |before| <= segmentSize <= U64_MAX && tail != [] && TornTail(crc, tail, |before|, segmentSize)
    ensures ReadOne(crc, before + tail, id, |before|, segmentSize) == Ok(Incomplete)
  {
    var record: Record, cut: nat :|
      && |record.payload| <= U32_MAX && |before| + HEADER_LEN + |record.payload| <= segmentSize
      && cut < HEADER_LEN + |record.payload| && tail == Encoded(crc, record)[..cut];
    TornRecord(crc, before, record, cut, id, segmentSize);
  }

  /** A clean segment streams exactly the records written, where they were written. */
  lemma {:induction false} StreamFrames(crc: Checksum, rs: seq<Record>, id: nat, segmentSize: nat, k: nat)
    requires Encodable(rs) && k <= |rs| && |Frames(crc, rs)| <= segmentSize <= U64_MAX
    ensures |Frames(crc, rs[..k])| <= |Frames(crc, rs)|
    ensures Stream(crc, Frames(crc, rs), id, |Frames(crc, rs[..k])|, segmentSize) == (Stored(crc, id, rs)[k..], None)
    decreases |rs| - k
  {
    hide ReadOne, Frames, Stored;
    FramesPrefix(crc, rs, k);
    var all := Stored(crc, id, rs);
    if k < |rs| {
      NextFrame(crc, rs, [], id, segmentSize, k);
      assert Frames(crc, rs) + [] == Frames(crc, rs);
      StreamFrames(crc, rs, id, segmentSize, k + 1);
      StoredAt(crc, id, rs, k);
      assert all[k..] == [all[k]] + all[k + 1..];
    } else {
      assert rs[..k] == rs;
      assert all[k..] == [];
      EndRead(crc, Frames(crc, rs), id, segmentSize);
    }
  }

  lemma EndRead(crc: Checksum, data: Bytes, id: nat, segmentSize: nat)
    ensures ReadOne(crc, data, id, |data|, segmentSize) == Ok(Eof)
  {
  }

  lemma {:induction false} StoredAt(crc: Checksum, id: nat, rs: seq<Record>, k: nat)
    requires Encodable(rs) && k < |rs|
    ensures Stored(crc, id, rs)[k] == StoredRecord(Lsn(id, |Frames(crc, rs[..k])|), rs[k])
  {
    var init := rs[..|rs| - 1];
    if k < |init| {
      StoredAt(crc, id, init, k);
      assert init[..k] == rs[..k];
    }
  }

  // ----- The directory -----

  /** `expected` is the least id missing below `found`, the least id past the gap. */
  ghost predicate Gap(keys: set<nat>, expected: nat, found: nat) {
    && expected < found && expected !in keys && found in keys
    && (forall id: nat :: id < expected ==> id in keys)
    && (forall id: nat :: id in keys ==> id < expected || found <= id)
  }

  ghost predicate Gapless(keys: set<nat>, n: nat) {
    forall id: nat :: id in keys <==> id < n
  }

  /** Segment ids must run from 0 without a gap; the first gap is reported. */
  method ListSegments(dir: map<nat, Bytes>) returns (r: Result<seq<Bytes>>)
    ensures r.Ok? ==> Gapless(dir.Keys, |r.value|) && forall id :: 0 <= id < |r.value| ==> r.value[id] == dir[id]
    ensures r.Err? ==> r.error.MissingSegment? && Gap(dir.Keys, r.error.expected, r.error.found)
  {
    var ids := Ascending(dir.Keys);
    var segments: seq<Bytes> := [];
    for k := 0 to |ids|
      invariant |segments| == k
      invariant forall j :: 0 <= j < k ==> ids[j] == j && j in dir && segments[j] == dir[j]
    {
      assert ids[k] in dir.Keys;
      if ids[k] != k {
        FirstGap(dir.Keys, ids, k);
        return Err(MissingSegment(k, ids[k]));
      }
      segments := segments + [dir[ids[k]]];
    }
    NoGap(dir.Keys, ids);
    r := Ok(segments);
  }

  lemma NoGap(keys: set<nat>, ids: seq<nat>)
    requires forall x :: x in ids <==> x in keys
    requires forall j :: 0 <= j < |ids| ==> ids[j] == j
    ensures Gapless(keys, |ids|)
  {
    forall id: nat ensures id in keys <==> id < |ids| {
      assert id in ids <==> id in keys;
      if id < |ids| {
        assert ids[id] == id;
      }
    }
  }

  lemma FirstGap(keys: set<nat>, ids: seq<nat>, k: nat)
    requires forall x :: x in ids <==> x in keys
    requires forall i, j :: 0 <= i < j < |ids| ==> ids[i] < ids[j]
    requires k < |ids| && ids[k] != k && forall j :: 0 <= j < k ==> ids[j] == j
    ensures Gap(keys, k, ids[k])
  {
    assert k > 0 ==> ids[k - 1] < ids[k];
    forall id: nat | id < k ensures id in keys {
      assert ids[id] in ids;
    }
    forall id: nat | id in keys ensures id < k || ids[k] <= id {
      assert id in ids;
      var j :| 0 <= j < |ids| && ids[j] == id;
    }
  }

  /** Repairs a listed directory: only the last segment may end in an incomplete record, and
      it is cut back to its last whole one. An empty directory gets its first segment. */
  function Recover(crc: Checksum, segments: seq<Bytes>, segmentSize: nat): Result<seq<Bytes>> {
    if segments == [] then Ok([[]]) else RecoverFrom(crc, segments, segmentSize, 0)
  }

  function RecoverFrom(crc: Checksum, segments: seq<Bytes>, segmentSize: nat, id: nat): Result<seq<Bytes>>
    requires id <= |segments|
    decreases |segments| - id
  {
    if id == |segments| then Ok(segments)
    else
      match Scan(crc, segments[id], id, 0, segmentSize)
      case Err(e) => Err(e)
      case Ok(Clean(_)) => RecoverFrom(crc, segments, segmentSize, id + 1)
      case Ok(IncompleteTail(len)) =>
        if id + 1 != |segments| then Err(CorruptRecord(Lsn(id, len), IncompleteRecord))
        else Ok(segments[id := Truncated(segments[id], len)])
  }

  function Truncated(data: Bytes, len: nat): Bytes {
    if len <= |data| then data[..len] else data
  }

  method RecoverDir(crc: Checksum, listed: seq<Bytes>, segmentSize: nat) returns (r: Result<seq<Bytes>>)
    ensures r == Recover(crc, listed, segmentSize)
  {
    var segments := listed;
    if segments == [] {
      segments := [[]];
      assert Scan(crc, segments[0], 0, 0, segmentSize) == Ok(Clean(0));
    }
    ghost var whole := RecoverFrom(crc, segments, segmentSize, 0);
    assert listed == [] ==> whole == Ok([[]]);
    for id := 0 to |segments|
      invariant RecoverFrom(crc, segments, segmentSize, id) == whole
    {
      var scan := ValidLen(crc, segments[id], id, segmentSize);
      match scan
      case Err(e) => return Err(e);
      case Ok(Clean(_)) =>
      case Ok(IncompleteTail(len)) =>
        if id + 1 != |segments| {
          return Err(CorruptRecord(Lsn(id, len), IncompleteRecord));
        }
        return Ok(segments[id := Truncated(segments[id], len)]);
    }
    r := Ok(segments);
  }

  function SumLen(segments: seq<Bytes>): nat {
    if segments == [] then 0 else SumLen(segments[..|segments| - 1]) + |segments[|segments| - 1]|
  }

  /** Total length, refused when it does not fit the counter. */
  method TotalLen(segments: seq<Bytes>) returns (r: Result<nat>)
    ensures r == if SumLen(segments) > U64_MAX then Err(WalFull(U64_MAX, U64_MAX)) else Ok(SumLen(segments))
  {
    var total := 0;
    for k := 0 to |segments|
      invariant total == SumLen(segments[..k]) <= U64_MAX
    {
      assert segments[..k + 1][..k] == segments[..k];
      if total + |segments[k]| > U64_MAX {
        SumLenGrows(segments, k + 1);
        return Err(WalFull(U64_MAX, U64_MAX));
      }
      total := total + |segments[k]|;
    }
    assert segments[..|segments|] == segments;
    r := Ok(total);
  }

  lemma {:induction false} SumLenGrows(segments: seq<Bytes>, k: nat)
    requires k <= |segments|
    ensures SumLen(segments[..k]) <= SumLen(segments)
    decreases |segments| - k
  {
    if k < |segments| {
      assert segments[..k + 1][..k] == segments[..k];
      SumLenGrows(segments, k + 1);
    } else {
      assert segments[..k] == segments;
    }
  }
}
