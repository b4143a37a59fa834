/** The record format of the write-ahead log (basisdb-wal/src/format.rs, record.rs).
    The checksum is any function of the bytes; nothing is claimed about detecting damage. */
module WalFormat {
  import opened Types

  const MAGIC := 0x4339_574c
  const VERSION := 1
  const HEADER_LEN := 32
  const HEADER_CRC_END := 28
  const U32_MAX := 0xffff_ffff

  type U16 = x: int | 0 <= x <= 0xffff
  type U32 = x: int | 0 <= x <= 0xffff_ffff
  /** A record kind; zero is reserved. */
  type Kind = x: int | 1 <= x <= 0xffff witness 1
  type Checksum = Bytes -> U32

  datatype Lsn = Lsn(segmentId: nat, offset: nat) {
    predicate Before(other: Lsn) {
      segmentId < other.segmentId || (segmentId == other.segmentId && offset < other.offset)
    }
  }

  datatype Record = Record(kind: Kind, payload: Bytes)
  datatype StoredRecord = StoredRecord(lsn: Lsn, record: Record)

  datatype Corruption =
    | BadMagic(found: nat)
    | UnsupportedVersion(found: nat)
    | ReservedRecordKind
    | HeaderChecksum
    | PayloadChecksum
    | CorruptRecordTooLarge(len: nat, segmentSize: nat)
    | SegmentTooLarge(len: nat, segmentSize: nat)
    | IncompleteRecord

  datatype WalError =
    | Io
    | SegmentTooSmall(segmentSize: nat, headerLen: nat)
    | RecordTooLarge(len: nat, segmentSize: nat)
    | WalFull(len: nat, maxSize: nat)
    | PayloadTooLarge(len: nat)
    | SegmentIdExhausted
    | CorruptRecord(lsn: Lsn, reason: Corruption)
    | MissingSegment(expected: nat, found: nat)
    | Poisoned

  datatype Result<+T> = Ok(value: T) | Err(error: WalError)

  // ----- Little-endian fields -----

  function Le16(v: U16): (b: Bytes)
    ensures |b| == 2
  {
    [v % 256, v / 256]
  }

  function Le32(v: U32): (b: Bytes)
    ensures |b| == 4
  {
    [v % 256, v / 256 % 256, v / 65536 % 256, v / 16777216]
  }

  function U16At(b: Bytes, start: nat): U16
    requires start + 2 <= |b|
  {
    var b0: int, b1: int := b[start], b[start + 1];
    b0 + 256 * b1
  }

  function U32At(b: Bytes, start: nat): U32
    requires start + 4 <= |b|
  {
    var b0: int, b1: int, b2: int, b3: int := b[start], b[start + 1], b[start + 2], b[start + 3];
    b0 + 256 * b1 + 65536 * b2 + 16777216 * b3
  }

  lemma Le16Back(b: Bytes, start: nat, v: U16)
    requires start + 2 <= |b| && b[start..start + 2] == Le16(v)
    ensures U16At(b, start) == v
  {
    var w := b[start..start + 2];
    assert b[start] == w[0] && b[start + 1] == w[1];
  }

  lemma Le32Back(b: Bytes, start: nat, v: U32)
    requires start + 4 <= |b| && b[start..start + 4] == Le32(v)
    ensures U32At(b, start) == v
  {
    var w := b[start..start + 4];
    assert b[start] == w[0] && b[start + 1] == w[1] && b[start + 2] == w[2] && b[start + 3] == w[3];
    assert v / 65536 == v / 256 / 256 && v / 16777216 == v / 65536 / 256;
  }

  // ----- Encoding -----

  function Zeros(n: nat): (b: Bytes)
    ensures |b| == n
  {
    seq(n, _ => 0)
  }

  /** The header up to its own checksum. */
  function Fields(crc: Checksum, record: Record): (b: Bytes)
    requires |record.payload| <= U32_MAX
    ensures |b| == HEADER_CRC_END
  {
    Le32(MAGIC) + Le16(VERSION) + Le16(record.kind) + Le32(|record.payload|) + Le32(crc(record.payload)) + Zeros(12)
  }

  function Encoded(crc: Checksum, record: Record): (b: Bytes)
    requires |record.payload| <= U32_MAX
    ensures |b| == HEADER_LEN + |record.payload|
  {
    var fields := Fields(crc, record);
    fields + Le32(crc(fields)) + record.payload
  }

  /** The buffer holds these fields, and is zero behind them. */
  ghost predicate Begins(buffer: Bytes, fields: Bytes) {
    |fields| <= |buffer| && buffer == fields + Zeros(|buffer| - |fields|)
  }

  /** Writes a field into the buffer, behind those already there. */
  method PutField(buffer: array<Byte>, start: nat, field: Bytes, ghost fields: Bytes)
    requires start == |fields| && start + |field| <= buffer.Length && Begins(buffer[..], fields)
    modifies buffer
    ensures Begins(buffer[..], fields + field)
  {
    forall k | 0 <= k < |field| {
      buffer[start + k] := field[k];
    }
  }

  method EncodeRecord(crc: Checksum, kind: Kind, payload: Bytes) returns (r: Result<Bytes>)
    ensures r == if |payload| > U32_MAX then Err(PayloadTooLarge(|payload|))
        else Ok(Encoded(crc, Record(kind, payload)))
  {
    if |payload| > U32_MAX {
      return Err(PayloadTooLarge(|payload|));
    }
    var header := EncodeHeader(crc, kind, payload);
    r := Ok(header + payload);
  }

  method EncodeHeader(crc: Checksum, kind: Kind, payload: Bytes) returns (r: Bytes)
    requires |payload| <= U32_MAX
    ensures var fields := Fields(crc, Record(kind, payload)); r == fields + Le32(crc(fields))
  {
    hide Le16, Le32, Zeros, Begins, Fields;
    var header := new Byte[HEADER_LEN](_ => 0);
    AllZeros(header[..]);
    ghost var done := [];
    PutField(header, 0, Le32(MAGIC), done);
    done := done + Le32(MAGIC);
    PutField(header, 4, Le16(VERSION), done);
    done := done + Le16(VERSION);
    PutField(header, 6, Le16(kind), done);
    done := done + Le16(kind);
    PutField(header, 8, Le32(|payload|), done);
    done := done + Le32(|payload|);
    PutField(header, 12, Le32(crc(payload)), done);
    done := done + Le32(crc(payload));
    FieldsDone(crc, Record(kind, payload), header[..], done);
    PutField(header, 28, Le32(crc(header[..HEADER_CRC_END])), Fields(crc, Record(kind, payload)));
    HeaderFull(header[..], Fields(crc, Record(kind, payload)) + Le32(crc(Fields(crc, Record(kind, payload)))));
    r := header[..];
  }

  lemma AllZeros(buffer: Bytes)
    requires forall k :: 0 <= k < |buffer| ==> buffer[k] == 0
    ensures Begins(buffer, [])
  {
  }

  /** The reserved bytes are zero already. */
  lemma FieldsDone(crc: Checksum, record: Record, buffer: Bytes, done: Bytes)
    requires |record.payload| <= U32_MAX && |buffer| == HEADER_LEN && Begins(buffer, done)
    requires done == [] + Le32(MAGIC) + Le16(VERSION) + Le16(record.kind) + Le32(|record.payload|)
                   + Le32(crc(record.payload))
    ensures Begins(buffer, Fields(crc, record)) && buffer[..HEADER_CRC_END] == Fields(crc, record)
  {
    hide Le16, Le32;
    assert Zeros(16) == Zeros(12) + Zeros(4);
    assert Fields(crc, record) == done + Zeros(12);
  }

  lemma HeaderFull(buffer: Bytes, fields: Bytes)
    requires Begins(buffer, fields) && |buffer| == |fields|
    ensures buffer == fields
  {
  }

  // ----- Decoding -----

  datatype ReadOutcome = Whole(record: Record, next: nat) | Eof | Incomplete

  function DecodeHeader(crc: Checksum, header: Bytes, lsn: Lsn): Result<Kind>
    requires |header| == HEADER_LEN
  {
    var magic, version, kind := U32At(header, 0), U16At(header, 4), U16At(header, 6);
    if magic != MAGIC then Err(CorruptRecord(lsn, BadMagic(magic)))
    else if version != VERSION then Err(CorruptRecord(lsn, UnsupportedVersion(version)))
    else if crc(header[..HEADER_CRC_END]) != U32At(header, 28) then Err(CorruptRecord(lsn, HeaderChecksum))
    else if kind == 0 then Err(CorruptRecord(lsn, ReservedRecordKind))
    else Ok(kind)
  }

  /** Reads the record at `offset` of a segment file holding `data`. */
  function ReadOne(crc: Checksum, data: Bytes, segmentId: nat, offset: nat, segmentSize: nat): Result<ReadOutcome>
    requires offset <= |data|
  {
    var lsn := Lsn(segmentId, offset);
    if offset == |data| then Ok(Eof)
    else if |data| - offset < HEADER_LEN then Ok(Incomplete)
    else
      var header := data[offset..offset + HEADER_LEN];
      match DecodeHeader(crc, header, lsn)
      case Err(e) => Err(e)
      case Ok(kind) =>
        var recordLen := HEADER_LEN + U32At(header, 8);
        var next := offset + recordLen;
        if recordLen > segmentSize then Err(CorruptRecord(lsn, CorruptRecordTooLarge(recordLen, segmentSize)))
        else if next > U64_MAX then Err(CorruptRecord(lsn, SegmentTooLarge(U64_MAX, segmentSize)))
        else if next > segmentSize then Err(CorruptRecord(lsn, SegmentTooLarge(next, segmentSize)))
        else if next > |data| then Ok(Incomplete)
        else
          var payload := data[offset + HEADER_LEN..next];
          if crc(payload) != U32At(header, 12) then Err(CorruptRecord(lsn, PayloadChecksum))
          else Ok(Whole(Record(kind, payload), next))
  }

  datatype ReadExact = Complete(bytes: Bytes) | AtEof | Short

  /** Fills a buffer from a reader that may hand over any number of bytes at a time. */
  method ReadExactOrTail(data: Bytes, offset: nat, want: nat) returns (r: ReadExact)
    requires offset <= |data|
    ensures r == if want == 0 || offset + want <= |data| then Complete(data[offset..offset + want])
                 else if offset == |data| then AtEof
                 else Short
  {
    var filled: Bytes := [];
    while |filled| < want
      invariant |filled| <= want && offset + |filled| <= |data|
      invariant filled == data[offset..offset + |filled|]
    {
      var left := |data| - offset - |filled|;
      if left == 0 {
        return if filled == [] then AtEof else Short;
      }
      var most := if left < want - |filled| then left else want - |filled|;
      var n :| 1 <= n <= most;
      var at := offset + |filled|;
      filled := filled + data[at..at + n];
    }
    r := Complete(filled);
  }

  // ----- Round trip and torn tails -----

  /** The reader sees the header fields that the encoder wrote. */
  lemma HeaderBack(crc: Checksum, record: Record, lsn: Lsn)
    requires |record.payload| <= U32_MAX
    ensures var header := Encoded(crc, record)[..HEADER_LEN];
            && DecodeHeader(crc, header, lsn) == Ok(record.kind)
            && U32At(header, 8) == |record.payload|
            && U32At(header, 12) == crc(record.payload)
  {
    var fields := Fields(crc, record);
    var header := Encoded(crc, record)[..HEADER_LEN];
    assert header == fields + Le32(crc(fields));
    assert header[..HEADER_CRC_END] == fields;
    FieldsBack(crc, record, header);
    assert header[28..32] == Le32(crc(fields));
    Le32Back(header, 28, crc(fields));
  }

  lemma FieldsBack(crc: Checksum, record: Record, header: Bytes)
    requires |record.payload| <= U32_MAX
    requires |header| == HEADER_LEN && header[..HEADER_CRC_END] == Fields(crc, record)
    ensures U32At(header, 0) == MAGIC && U16At(header, 4) == VERSION && U16At(header, 6) == record.kind
    ensures U32At(header, 8) == |record.payload| && U32At(header, 12) == crc(record.payload)
  {
    var fields := Fields(crc, record);
    assert header[0..4] == fields[0..4] == Le32(MAGIC);
    assert header[4..6] == fields[4..6] == Le16(VERSION);
    assert header[6..8] == fields[6..8] == Le16(record.kind);
    assert header[8..12] == fields[8..12] == Le32(|record.payload|);
    assert header[12..16] == fields[12..16] == Le32(crc(record.payload));
    Le32Back(header, 0, MAGIC);
    Le16Back(header, 4, VERSION);
    Le16Back(header, 6, record.kind);
    Le32Back(header, 8, |record.payload|);
    Le32Back(header, 12, crc(record.payload));
  }

  /** Whatever precedes and follows it, an encoded record is read back exactly. */
  lemma ReadBack(crc: Checksum, before: Bytes, record: Record, after: Bytes, segmentId: nat, segmentSize: nat)
    requires |record.payload| <= U32_MAX && segmentSize <= U64_MAX
    requires |before| + HEADER_LEN + |record.payload| <= segmentSize
    ensures ReadOne(crc, before + Encoded(crc, record) + after, segmentId, |before|, segmentSize)
         == Ok(Whole(record, |before| + HEADER_LEN + |record.payload|))
  {
    var encoded := Encoded(crc, record);
    var data := before + encoded + after;
    HeaderBack(crc, record, Lsn(segmentId, |before|));
    assert data[|before|..|before| + HEADER_LEN] == encoded[..HEADER_LEN];
    assert data[|before| + HEADER_LEN..|before| + |encoded|] == record.payload;
  }

  /** A record cut short anywhere is recognised as a tail, never as damage. */
  lemma TornRecord(crc: Checksum, before: Bytes, record: Record, cut: nat, segmentId: nat, segmentSize: nat)
    requires |record.payload| <= U32_MAX && segmentSize <= U64_MAX
    requires |before| + HEADER_LEN + |record.payload| <= segmentSize
    requires cut < HEADER_LEN + |record.payload|
    ensures ReadOne(crc, before + Encoded(crc, record)[..cut], segmentId, |before|, segmentSize)
         == Ok(if cut == 0 then Eof else Incomplete)
  {
    var torn := Encoded(crc, record)[..cut];
    var data := before + torn;
    if cut >= HEADER_LEN {
      HeaderBack(crc, record, Lsn(segmentId, |before|));
      assert data[|before|..|before| + HEADER_LEN] == torn[..HEADER_LEN] == Encoded(crc, record)[..HEADER_LEN];
    }
  }
}
