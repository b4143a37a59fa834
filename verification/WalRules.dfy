/** The bytes of a record, and exactly when one is read and one is taken
    (basisdb-wal/src/format.rs, wal.rs). */
module WalRules {
  import opened Types
  import opened WalFormat
  import opened WalLog

  /** The number in `n` bytes from `start` on, the low byte first. */
  function Low(b: Bytes, start: nat, n: nat): nat
    requires start + n <= |b|
    decreases n
  {
    if n == 0 then 0
    else
      var byte: int := b[start];
      byte + 256 * Low(b, start + 1, n - 1)
  }

  /** What the first 28 bytes of a header say: signature, version, kind, length and checksum of
      the payload. */
  predicate Says(crc: Checksum, header: Bytes, record: Record)
    requires |header| >= HEADER_CRC_END
  {
    && Low(header, 0, 4) == 0x4339_574c && Low(header, 4, 2) == 1 && Low(header, 6, 2) == record.kind
    && Low(header, 8, 4) == |record.payload| && Low(header, 12, 4) == crc(record.payload)
  }

  lemma LowIs(b: Bytes, start: nat)
    ensures start + 2 <= |b| ==> Low(b, start, 2) == U16At(b, start)
    ensures start + 4 <= |b| ==> Low(b, start, 4) == U32At(b, start)
  {
    if start + 2 <= |b| {
      assert Low(b, start + 1, 1) == b[start + 1] as int;
    }
    if start + 4 <= |b| {
      assert Low(b, start + 3, 1) == b[start + 3] as int;
      assert Low(b, start + 2, 2) == b[start + 2] as int + 256 * b[start + 3] as int;
      assert Low(b, start + 1, 3) == b[start + 1] as int + 256 * Low(b, start + 2, 2);
    }
  }

  lemma SaysIff(crc: Checksum, header: Bytes, record: Record)
    requires |header| >= HEADER_CRC_END
    ensures Says(crc, header, record) <==>
            && U32At(header, 0) == MAGIC && U16At(header, 4) == VERSION && U16At(header, 6) == record.kind
            && U32At(header, 8) == |record.payload| && U32At(header, 12) == crc(record.payload)
  {
    hide Low, U16At, U32At;
    LowIs(header, 0);
    LowIs(header, 4);
    LowIs(header, 6);
    LowIs(header, 8);
    LowIs(header, 12);
  }

  /** An encoded record is 28 bytes that say what it is, zero where nothing is said, their
      checksum, and the payload. */
  lemma Layout(crc: Checksum, record: Record)
    requires |record.payload| <= U32_MAX
    ensures var b := Encoded(crc, record);
            && |b| == 32 + |record.payload| && Says(crc, b[..28], record)
            && (forall k :: 16 <= k < 28 ==> b[k] == 0)
            && Low(b, 28, 4) == crc(b[..28]) && b[32..] == record.payload
  {
    hide Says, Low;
    var b, fields := Encoded(crc, record), Fields(crc, record);
    assert b[..28] == fields && b[28..32] == Le32(crc(fields));
    FieldsBack(crc, record, b[..32]);
    assert b[..32][..28] == b[..28];
    SaysIff(crc, b[..32], record);
    Shorter(crc, b[..32], record);
    Le32Back(b, 28, crc(fields));
    LowIs(b, 28);
  }

  lemma {:induction false} LowPrefix(b: Bytes, m: nat, start: nat, n: nat)
    requires start + n <= m <= |b|
    ensures Low(b[..m], start, n) == Low(b, start, n)
    decreases n
  {
    if n > 0 {
      LowPrefix(b, m, start + 1, n - 1);
    }
  }

  lemma Shorter(crc: Checksum, header: Bytes, record: Record)
    requires |header| >= 28
    ensures Says(crc, header[..28], record) <==> Says(crc, header, record)
  {
    hide Low;
    LowPrefix(header, 28, 0, 4);
    LowPrefix(header, 28, 4, 2);
    LowPrefix(header, 28, 6, 2);
    LowPrefix(header, 28, 8, 4);
    LowPrefix(header, 28, 12, 4);
  }

  // ----- Reading -----

  /** A record is read exactly if it is there: a header that says so, with its checksum, and the
      payload, within the file and the segment. */
  lemma WholeIff(crc: Checksum, data: Bytes, id: nat, offset: nat, segmentSize: nat, record: Record, next: nat)
    requires offset <= |data|
    ensures ReadOne(crc, data, id, offset, segmentSize) == Ok(Whole(record, next)) <==>
            && next == offset + 32 + |record.payload| <= |data|
            && |record.payload| <= U32_MAX && next <= segmentSize && next <= U64_MAX
            && Says(crc, data[offset..offset + 28], record)
            && Low(data, offset + 28, 4) == crc(data[offset..offset + 28])
            && data[offset + 32..next] == record.payload
  {
    hide Says, Low, U16At, U32At;
    if offset + 32 <= |data| {
      var header := data[offset..offset + 32];
      assert header[..28] == data[offset..offset + 28];
      SaysIff(crc, header, record);
      Shorter(crc, header, record);
      LowIs(data, offset + 28);
      SameField(data, offset, header);
    }
  }

  lemma SameField(data: Bytes, offset: nat, header: Bytes)
    requires offset + 32 <= |data| && header == data[offset..offset + 32]
    ensures U32At(header, 28) == U32At(data, offset + 28)
  {
  }

  /** The end is read exactly at the end of the file, and a tail exactly where the file ends
      before the header does, or before the record does that a good header announces. */
  lemma TailIff(crc: Checksum, data: Bytes, id: nat, offset: nat, segmentSize: nat)
    requires offset <= |data|
    ensures ReadOne(crc, data, id, offset, segmentSize) == Ok(Eof) <==> offset == |data|
    ensures ReadOne(crc, data, id, offset, segmentSize) == Ok(Incomplete) <==>
            || offset < |data| < offset + 32
            || (&& offset + 32 <= |data|
                && Low(data, offset, 4) == 0x4339_574c && Low(data, offset + 4, 2) == 1 && Low(data, offset + 6, 2) != 0
                && Low(data, offset + 28, 4) == crc(data[offset..offset + 28])
                && |data| < offset + 32 + Low(data, offset + 8, 4) <= Min(segmentSize, U64_MAX))
  {
    hide Low, U16At, U32At;
    if offset + 32 <= |data| {
      var header := data[offset..offset + 32];
      assert header[..28] == data[offset..offset + 28];
      LowIs(data, offset);
      LowIs(data, offset + 4);
      LowIs(data, offset + 6);
      LowIs(data, offset + 8);
      LowIs(data, offset + 28);
      SameField(data, offset, header);
      SameFields(data, offset, header);
    }
  }

  lemma SameFields(data: Bytes, offset: nat, header: Bytes)
    requires offset + 32 <= |data| && header == data[offset..offset + 32]
    ensures U32At(header, 0) == U32At(data, offset) && U16At(header, 4) == U16At(data, offset + 4)
    ensures U16At(header, 6) == U16At(data, offset + 6) && U32At(header, 8) == U32At(data, offset + 8)
  {
  }

  // ----- Appending -----

  /** What a healthy log has room for. */
  predicate Room(w: State, payload: Bytes) {
    var len := 32 + |payload|;
    && !w.poisoned && |payload| <= U32_MAX && w.totalLen + len <= Min(w.options.maxSize, U64_MAX)
    && len <= w.options.segmentSize && w.activeLen + len <= U64_MAX
  }

  /** The record does not fit behind what the active file has. */
  predicate Turns(w: State, payload: Bytes) {
    w.activeLen > 0 && w.activeLen + 32 + |payload| > w.options.segmentSize
  }

  /** An append succeeds exactly if there is room and nothing that it does fails. It returns the
      end of the active file, or the start of the next if the record does not fit there. */
  lemma AppendIff(crc: Checksum, w: State, record: Record, f: Faults)
    requires Wellformed(w)
    ensures var r := Append(crc, w, record, f).1;
            && (r.Ok? <==>
                  && Room(w, record.payload) && f.write.None? && (w.options.syncOnAppend ==> !f.sync)
                  && (Turns(w, record.payload) ==> !f.rotateSync && w.active < U64_MAX && !f.open && !f.dirSync))
            && (r.Ok? ==>
                  r.value == if Turns(w, record.payload) then Lsn(w.active + 1, 0) else Lsn(w.active, w.activeLen))
  {
    hide Encoded;
  }

  /** Without room nothing is touched, and the error says what there is too much of. */
  lemma NoRoom(crc: Checksum, w: State, record: Record, f: Faults)
    requires Wellformed(w) && !Room(w, record.payload)
    ensures var ((w', r), len) := (Append(crc, w, record, f), 32 + |record.payload|);
            && w' == w && r.Err?
            && r.error == if w.poisoned then Poisoned
                          else if |record.payload| > U32_MAX then PayloadTooLarge(|record.payload|)
                          else if w.totalLen + len > U64_MAX then RecordTooLarge(U64_MAX, U64_MAX)
                          else if w.totalLen + len > w.options.maxSize then WalFull(w.totalLen + len, w.options.maxSize)
                          else if len > w.options.segmentSize then RecordTooLarge(len, w.options.segmentSize)
                          else RecordTooLarge(U64_MAX, w.options.segmentSize)
  {
    hide Encoded;
  }
}
