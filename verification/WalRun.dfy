/** Whole lives of a log: appends, syncs, failures, crashes and reopenings in any order. */
module WalRun {
  import opened Types
  import opened WalFormat
  import opened WalSegment
  import opened WalLog
  import opened WalCrash

  datatype Op = AppendOp(record: Record, faults: Faults) | SyncOp(fails: bool) | CrashOp(image: seq<Bytes>, stable: nat)

  /** One step; a crash is followed by a reopening that succeeds. */
  ghost predicate Next(crc: Checksum, w: State, op: Op, w': State)
    requires Wellformed(w)
  {
    match op
    case AppendOp(record, faults) => w' == Append(crc, w, record, faults).0
    case SyncOp(fails) => w' == Sync(w, fails).0
    case CrashOp(image, stable) => Crash(w, image, stable) && Open(crc, image, w.options, stable) == Ok(w')
  }

  /** A life of the log, from its creation in an empty directory. */
  ghost predicate IsLife(crc: Checksum, ws: seq<State>, ops: seq<Op>) {
    && |ws| == |ops| + 1
    && Open(crc, [], ws[0].options, 0) == Ok(ws[0]) && Sized(ws[0].options)
    && (forall k :: 0 <= k < |ws| ==> Wellformed(ws[k]))
    && (forall k :: 0 <= k < |ops| ==> Next(crc, ws[k], ops[k], ws[k + 1]))
  }

  // ----- What is on stable storage -----

  /** The records that no crash can take away. */
  ghost function Safe(crc: Checksum, w: State, rs: seq<seq<Record>>): (kept: seq<seq<Record>>)
    requires Holds(crc, w, rs)
    ensures |kept| == |rs| && AllEncodable(kept)
  {
    rs[w.active := rs[w.active][..WholeWithin(crc, rs[w.active], w.synced)]]
  }

  lemma {:induction false} WholeWithinGrows(crc: Checksum, rs: seq<Record>, m: nat, n: nat)
    requires Encodable(rs) && m <= n
    ensures WholeWithin(crc, rs, m) <= WholeWithin(crc, rs, n)
  {
    var i, j := WholeWithin(crc, rs, m), WholeWithin(crc, rs, n);
    if j < i {
      if j + 1 < i {
        FramesGrow(crc, rs, j + 1, i);
      }
    }
  }

  /** More records at the end do not change how many lie within the old bytes. */
  lemma WholeWithinMore(crc: Checksum, rs: seq<Record>, record: Record, n: nat)
    requires Encodable(rs) && |record.payload| <= U32_MAX && n <= |Frames(crc, rs)|
    ensures WholeWithin(crc, rs + [record], n) == WholeWithin(crc, rs, n)
  {
    var more := rs + [record];
    assert more[..|rs|] == rs;
    FramesPrefix(crc, more, |rs|);
    assert more[..|rs| + 1] == more;
  }

  /** Keeping more of the last segment keeps a longer prefix of the records. */
  lemma KeepMore(crc: Checksum, rs: seq<seq<Record>>, i: nat, j: nat)
    requires AllEncodable(rs) && rs != [] && i <= j <= |rs[|rs| - 1]|
    ensures var last := rs[|rs| - 1];
            var a, b := rs[|rs| - 1 := last[..i]], rs[|rs| - 1 := last[..j]];
            AllEncodable(a) && AllEncodable(b) && AllStored(crc, a) <= AllStored(crc, b)
  {
    hide Stored, Frames;
    var last := rs[|rs| - 1];
    var a, b := rs[|rs| - 1 := last[..i]], rs[|rs| - 1 := last[..j]];
    assert a[..|rs| - 1] == rs[..|rs| - 1] == b[..|rs| - 1];
    assert last[..j][..i] == last[..i];
    StoredTake(crc, |rs| - 1, last[..j], i);
  }

  lemma SafeWithin(crc: Checksum, w: State, rs: seq<seq<Record>>)
    requires Holds(crc, w, rs)
    ensures AllStored(crc, Safe(crc, w, rs)) <= AllStored(crc, rs)
    ensures w.synced == w.activeLen ==> Safe(crc, w, rs) == rs
  {
    hide Holds, Frames, WholeWithin, AllStored;
    HoldsLast(crc, w, rs);
    var last := rs[w.active];
    KeepMore(crc, rs, WholeWithin(crc, last, w.synced), |last|);
    assert last[..|last|] == last && rs[w.active := last] == rs;
    if w.synced == w.activeLen {
      AllWithin(crc, last, w.synced);
    }
  }

  lemma SyncSafe(crc: Checksum, w: State, rs: seq<seq<Record>>, fails: bool)
    requires Holds(crc, w, rs)
    ensures Holds(crc, Sync(w, fails).0, rs)
    ensures AllStored(crc, Safe(crc, w, rs)) <= AllStored(crc, Safe(crc, Sync(w, fails).0, rs))
  {
    SyncKeeps(crc, w, rs, fails);
    SafeWithin(crc, w, rs);
    hide Holds, Safe, AllStored;
    var w' := Sync(w, fails).0;
    if w'.synced != w.synced {
      SafeWithin(crc, w', rs);
    } else {
      SameSafe(crc, w, w', rs);
    }
  }

  lemma SameSafe(crc: Checksum, w: State, w': State, rs: seq<seq<Record>>)
    requires Holds(crc, w, rs) && Holds(crc, w', rs) && w.active == w'.active && w.synced == w'.synced
    ensures Safe(crc, w, rs) == Safe(crc, w', rs)
  {
  }

  lemma RotateSafe(crc: Checksum, w: State, rs: seq<seq<Record>>, recordLen: nat, f: Faults)
      returns (rs': seq<seq<Record>>)
    requires Holds(crc, w, rs)
    ensures var (w', r) := RotateIfNeeded(w, recordLen, f);
            && Holds(crc, w', rs')
            && AllStored(crc, rs') == AllStored(crc, rs)
            && AllStored(crc, Safe(crc, w, rs)) <= AllStored(crc, Safe(crc, w', rs'))
            && w'.totalLen == w.totalLen && w'.options == w.options
            && (r.Ok? ==> w'.activeLen + recordLen <= w.options.segmentSize && w'.poisoned == w.poisoned)
  {
    hide Holds, Safe, AllStored, RotateIfNeeded;
    HoldsSized(crc, w, rs);
    rs' := RotateKeeps(crc, w, rs, recordLen, f);
    var w' := RotateIfNeeded(w, recordLen, f).0;
    SafeWithin(crc, w, rs);
    SafeWithin(crc, w', rs');
    if rs' == rs && w'.synced == w.synced {
      SameSafe(crc, w, w', rs);
    } else if rs' != rs {
      FreshSafe(crc, w', rs');
    }
  }

  lemma FreshSafe(crc: Checksum, w: State, rs: seq<seq<Record>>)
    requires Holds(crc, w, rs) && w.synced == w.activeLen
    ensures Safe(crc, w, rs) == rs
  {
    hide Holds, Safe, AllStored;
    SafeWithin(crc, w, rs);
  }

  /** What an append may do to the records: a success adds exactly the record, at the position
      returned; a refusal or failure adds nothing, or leaves the handle poisoned with at most
      that one record added. */
  ghost predicate Added(crc: Checksum, rs: seq<seq<Record>>, record: Record, w': State, r: Result<Lsn>,
                        rs': seq<seq<Record>>)
    requires AllEncodable(rs) && AllEncodable(rs')
  {
    && (r.Ok? ==> AllStored(crc, rs') == AllStored(crc, rs) + [StoredRecord(r.value, record)])
    && (r.Err? ==> || AllStored(crc, rs') == AllStored(crc, rs)
                   || (w'.poisoned && exists lsn ::
                         AllStored(crc, rs') == AllStored(crc, rs) + [StoredRecord(lsn, record)]))
  }

  lemma WriteSafe(crc: Checksum, w: State, rs: seq<seq<Record>>, record: Record, f: Faults)
      returns (rs': seq<seq<Record>>)
    requires Holds(crc, w, rs) && !w.poisoned && |record.payload| <= U32_MAX
    requires w.activeLen + HEADER_LEN + |record.payload| <= w.options.segmentSize
    requires w.totalLen + HEADER_LEN + |record.payload| <= w.options.maxSize
    ensures Holds(crc, Write(crc, w, record, f).0, rs')
    ensures AllStored(crc, Safe(crc, w, rs)) <= AllStored(crc, Safe(crc, Write(crc, w, record, f).0, rs'))
    ensures Added(crc, rs, record, Write(crc, w, record, f).0, Write(crc, w, record, f).1, rs')
  {
    rs' := WriteKeeps(crc, w, rs, record, f);
    var w' := Write(crc, w, record, f).0;
    SafeWithin(crc, w, rs);
    SafeWithin(crc, w', rs');
    HoldsLast(crc, w, rs);
    HoldsLast(crc, w', rs');
    SyncedBelow(crc, w, rs);
    hide Holds, AllStored, Frames, WholeWithin;
    if rs' == rs {
      SameSafe(crc, w, w', rs);
    } else if w'.synced == w.synced {
      WholeWithinMore(crc, rs[w.active], record, w.synced);
      SafeAfterWrite(crc, w, rs, w', rs', record);
    }
  }

  lemma SyncedBelow(crc: Checksum, w: State, rs: seq<seq<Record>>)
    requires Holds(crc, w, rs)
    ensures w.synced <= w.activeLen
  {
  }

  lemma SafeAfterWrite(crc: Checksum, w: State, rs: seq<seq<Record>>, w': State, rs': seq<seq<Record>>, record: Record)
    requires Holds(crc, w, rs) && Holds(crc, w', rs') && |rs| == w.active + 1 && w'.active == w.active
        && w'.synced == w.synced
    requires |record.payload| <= U32_MAX && rs' == rs[w.active := rs[w.active] + [record]]
    requires WholeWithin(crc, rs[w.active] + [record], w.synced) == WholeWithin(crc, rs[w.active], w.synced)
    ensures Safe(crc, w, rs) == Safe(crc, w', rs')
  {
    hide Holds, WholeWithin, Frames;
    HoldsLast(crc, w, rs);
    var j := WholeWithin(crc, rs[w.active], w.synced);
    assert (rs[w.active] + [record])[..j] == rs[w.active][..j];
  }

  /** Whatever the arguments and whatever fails, an append keeps the log's shape and
      everything that was on stable storage. */
  lemma AppendKeeps(crc: Checksum, w: State, rs: seq<seq<Record>>, record: Record, f: Faults)
      returns (rs': seq<seq<Record>>)
    requires Holds(crc, w, rs)
    ensures Wellformed(w) && AllEncodable(rs)
    ensures Holds(crc, Append(crc, w, record, f).0, rs')
    ensures AllStored(crc, Safe(crc, w, rs)) <= AllStored(crc, Safe(crc, Append(crc, w, record, f).0, rs'))
    ensures AllEncodable(rs') && Added(crc, rs, record, Append(crc, w, record, f).0, Append(crc, w, record, f).1, rs')
  {
    hide Holds, RotateIfNeeded, Write, AllStored, Safe;
    HoldsSized(crc, w, rs);
    HoldsLast(crc, w, rs);
    rs' := rs;
    if !w.poisoned && |record.payload| <= U32_MAX {
      var recordLen := HEADER_LEN + |record.payload|;
      if w.totalLen + recordLen <= U64_MAX && w.totalLen + recordLen <= w.options.maxSize {
        var rs1 := RotateSafe(crc, w, rs, recordLen, f);
        rs' := rs1;
        var (rotated, r) := RotateIfNeeded(w, recordLen, f);
        HoldsLast(crc, rotated, rs1);
        if r.Ok? {
          rs' := WriteSafe(crc, rotated, rs1, record, f);
          HoldsLast(crc, Write(crc, rotated, record, f).0, rs');
        }
      }
    }
  }

  /** A crash leaves at least what was on stable storage. */
  lemma SafeSurvives(crc: Checksum, w: State, rs: seq<seq<Record>>, image: seq<Bytes>)
    requires Holds(crc, w, rs) && CrashImage(w, image)
    ensures AllStored(crc, Safe(crc, w, rs)) <= AllStored(crc, Surviving(crc, w, rs, image))
  {
    hide Holds, AllStored, Frames, WholeWithin, Open;
    HoldsLast(crc, w, rs);
    var last := rs[w.active];
    WholeWithinGrows(crc, last, w.synced, |image[w.active]|);
    KeepMore(crc, rs, WholeWithin(crc, last, w.synced), WholeWithin(crc, last, |image[w.active]|));
  }

  lemma {:induction false} WholeWithinTake(crc: Checksum, rs: seq<Record>, j: nat, n: nat)
    requires Encodable(rs) && j <= |rs| && n <= |Frames(crc, rs[..j])|
    ensures WholeWithin(crc, rs[..j], n) == WholeWithin(crc, rs, n)
  {
    if j < |rs| {
      var init := rs[..|rs| - 1];
      assert init[..j] == rs[..j] && init + [rs[|rs| - 1]] == rs;
      FramesPrefix(crc, init, j);
      WholeWithinTake(crc, init, j, n);
      WholeWithinMore(crc, init, rs[|rs| - 1], n);
    } else {
      assert rs[..j] == rs;
    }
  }

  lemma StillSafe(crc: Checksum, w: State, rs: seq<seq<Record>>, image: seq<Bytes>, stable: nat, w': State)
    requires Holds(crc, w, rs) && CrashImage(w, image) && w'.active == w.active
    requires Holds(crc, w', Surviving(crc, w, rs, image)) && w'.synced == stable
    ensures |rs| == w.active + 1 && Encodable(rs[w.active])
    ensures Safe(crc, w', Surviving(crc, w, rs, image))
         == rs[w.active := rs[w.active][..WholeWithin(crc, rs[w.active], stable)]]
  {
    hide Holds, AllStored, Frames, WholeWithin;
    SyncedBelow(crc, w', Surviving(crc, w, rs, image));
    HoldsLast(crc, w', Surviving(crc, w, rs, image));
    HoldsLast(crc, w, rs);
    var last := rs[w.active];
    var j := WholeWithin(crc, last, |image[w.active]|);
    WholeWithinTake(crc, last, j, stable);
    var i := WholeWithin(crc, last, stable);
    assert last[..j][..i] == last[..i];
  }

  /** What was safe before a crash is safe in the reopened log, also when that has more bytes
      than are on stable storage. */
  lemma ReopenedSafe(crc: Checksum, w: State, rs: seq<seq<Record>>, image: seq<Bytes>, stable: nat, w': State)
    requires Holds(crc, w, rs) && Crash(w, image, stable) && |image| == w.active + 1 && w'.active == w.active
    requires Holds(crc, w', Surviving(crc, w, rs, image)) && w'.synced == stable
    ensures AllStored(crc, Safe(crc, w, rs)) <= AllStored(crc, Safe(crc, w', Surviving(crc, w, rs, image)))
  {
    hide Holds, AllStored, Frames, WholeWithin, Surviving;
    HoldsLast(crc, w, rs);
    var last := rs[w.active];
    StillSafe(crc, w, rs, image, stable, w');
    WholeWithinGrows(crc, last, w.synced, stable);
    KeepMore(crc, rs, WholeWithin(crc, last, w.synced), WholeWithin(crc, last, stable));
  }

  lemma CrashSafe(crc: Checksum, w: State, rs: seq<seq<Record>>, image: seq<Bytes>, stable: nat, w': State)
      returns (rs': seq<seq<Record>>)
    requires Holds(crc, w, rs) && Crash(w, image, stable) && Open(crc, image, w.options, stable) == Ok(w')
    ensures rs' == Groups(crc, w, rs, image) && Holds(crc, w', rs')
    ensures AllStored(crc, Safe(crc, w, rs)) <= AllStored(crc, Safe(crc, w', rs'))
    ensures AllStored(crc, rs') <= AllStored(crc, rs)
  {
    rs' := Groups(crc, w, rs, image);
    ReopenExact(crc, w, rs, image);
    ReopenedHolds(crc, w, rs, image, stable);
    HoldsLast(crc, w', rs');
    hide Holds, AllStored, Frames, WholeWithin, Open, Surviving, Safe;
    SafeWithin(crc, w', rs');
    SafeSurvives(crc, w, rs, image);
    SurvivorsPrefix(crc, w, rs, image);
    if w'.synced != w'.activeLen {
      ReopenedSafe(crc, w, rs, image, stable, w');
    }
  }

  // ----- The whole life -----

  /** What one step does to the records: an append adds what it says it adds, a sync leaves
      them alone, and a crash keeps a prefix. */
  ghost predicate Moved(crc: Checksum, w: State, rs: seq<seq<Record>>, op: Op, w': State, rs': seq<seq<Record>>)
    requires Wellformed(w) && AllEncodable(rs) && AllEncodable(rs')
  {
    match op
    case AppendOp(record, faults) => Added(crc, rs, record, w', Append(crc, w, record, faults).1, rs')
    case SyncOp(_) => rs' == rs
    case CrashOp(_, _) => AllStored(crc, rs') <= AllStored(crc, rs)
  }

  lemma StepSafe(crc: Checksum, w: State, rs: seq<seq<Record>>, op: Op, w': State) returns (rs': seq<seq<Record>>)
    requires Holds(crc, w, rs) && Next(crc, w, op, w')
    ensures Holds(crc, w', rs')
    ensures AllStored(crc, Safe(crc, w, rs)) <= AllStored(crc, Safe(crc, w', rs'))
    ensures Moved(crc, w, rs, op, w', rs')
  {
    hide Holds, Append, Sync, Open, AllStored, Safe, Surviving;
    HoldsSized(crc, w, rs);
    HoldsLast(crc, w, rs);
    match op
    case AppendOp(record, faults) => rs' := AppendKeeps(crc, w, rs, record, faults);
    case SyncOp(fails) =>
      rs' := rs;
      SyncSafe(crc, w, rs, fails);
    case CrashOp(image, stable) =>
      rs' := CrashSafe(crc, w, rs, image, stable, w');
  }

  lemma BirthHolds(crc: Checksum, w: State)
    requires Open(crc, [], w.options, 0) == Ok(w) && Sized(w.options)
    ensures Holds(crc, w, [[]])
  {
    assert w.segments == [[]] && SumLen([[]]) == 0;
    assert TotalFrames(crc, [[]]) == 0;
  }

  /** The records of each moment, tied to what the steps of the life did and returned. */
  ghost predicate Traced(crc: Checksum, ws: seq<State>, ops: seq<Op>, rss: seq<seq<seq<Record>>>) {
    && |rss| <= |ws| && |rss| <= |ops| + 1
    && (forall i :: 0 <= i < |rss| ==> Holds(crc, ws[i], rss[i]))
    && (forall i :: 0 <= i < |rss| - 1 ==> Moved(crc, ws[i], rss[i], ops[i], ws[i + 1], rss[i + 1]))
  }

  /** At every moment of every life the files are exactly some records. Each successful append
      puts its record last, at the position it returned; and nothing that was ever on stable
      storage is lost, altered or moved afterwards. */
  lemma {:induction false} LifeHolds(crc: Checksum, ws: seq<State>, ops: seq<Op>, k: nat)
    returns (rss: seq<seq<seq<Record>>>)
    requires IsLife(crc, ws, ops) && k < |ws|
    ensures |rss| == k + 1 && Traced(crc, ws, ops, rss)
    ensures forall i :: 0 <= i < k ==>
              AllStored(crc, Safe(crc, ws[i], rss[i])) <= AllStored(crc, Safe(crc, ws[i + 1], rss[i + 1]))
  {
    hide Holds, Next, AllStored, Safe, Open, Moved;
    if k == 0 {
      BirthHolds(crc, ws[0]);
      rss := [[[]]];
    } else {
      var before := LifeHolds(crc, ws, ops, k - 1);
      assert Next(crc, ws[k - 1], ops[k - 1], ws[k - 1 + 1]);
      var rs := StepSafe(crc, ws[k - 1], before[k - 1], ops[k - 1], ws[k]);
      rss := before + [rs];
      TracedMore(crc, ws, ops, before, rs);
      forall i | 0 <= i < k
        ensures AllStored(crc, Safe(crc, ws[i], rss[i])) <= AllStored(crc, Safe(crc, ws[i + 1], rss[i + 1]))
      {
        if i + 1 < k {
          assert rss[i] == before[i] && rss[i + 1] == before[i + 1];
        }
      }
    }
  }

  lemma TracedMore(crc: Checksum, ws: seq<State>, ops: seq<Op>, rss: seq<seq<seq<Record>>>, rs: seq<seq<Record>>)
    requires rss != [] && Traced(crc, ws, ops, rss) && |rss| < |ws| && |rss| <= |ops|
    requires Holds(crc, ws[|rss|], rs) && Holds(crc, ws[|rss| - 1], rss[|rss| - 1])
    requires Moved(crc, ws[|rss| - 1], rss[|rss| - 1], ops[|rss| - 1], ws[|rss|], rs)
    ensures Traced(crc, ws, ops, rss + [rs])
  {
    hide Holds, Moved;
    var more := rss + [rs];
    forall i | 0 <= i < |more| ensures Holds(crc, ws[i], more[i]) {
    }
    HoldsEncodable(crc, ws, more);
    forall i | 0 <= i < |more| - 1 ensures Moved(crc, ws[i], more[i], ops[i], ws[i + 1], more[i + 1]) {
      if i < |rss| - 1 {
        assert more[i] == rss[i] && more[i + 1] == rss[i + 1];
      }
    }
  }

  lemma HoldsEncodable(crc: Checksum, ws: seq<State>, rss: seq<seq<seq<Record>>>)
    requires |rss| <= |ws| && forall i :: 0 <= i < |rss| ==> Holds(crc, ws[i], rss[i])
    ensures forall i :: 0 <= i < |rss| ==> Wellformed(ws[i]) && AllEncodable(rss[i])
  {
  }

  /** Whatever happens later in a life, everything that was in the log when all of it was
      synced stays, in place. */
  lemma SyncedStays(crc: Checksum, ws: seq<State>, ops: seq<Op>, i: nat, j: nat) returns (rss: seq<seq<seq<Record>>>)
    requires IsLife(crc, ws, ops) && i <= j < |ws| && ws[i].synced == ws[i].activeLen
    ensures |rss| == j + 1 && Traced(crc, ws, ops, rss)
    ensures AllEncodable(rss[i]) && AllEncodable(rss[j]) && AllStored(crc, rss[i]) <= AllStored(crc, rss[j])
  {
    hide Holds, Next, AllStored, Safe, Open, Moved;
    rss := LifeHolds(crc, ws, ops, j);
    HoldsEncodable(crc, ws, rss);
    SafeWithin(crc, ws[i], rss[i]);
    SafeWithin(crc, ws[j], rss[j]);
    var safe := AllStored(crc, Safe(crc, ws[i], rss[i]));
    for k := i to j
      invariant safe <= AllStored(crc, Safe(crc, ws[k], rss[k]))
    {
    }
  }

  lemma {:induction false} StoredLength(crc: Checksum, id: nat, rs: seq<Record>)
    requires Encodable(rs)
    ensures |Stored(crc, id, rs)| == |rs|
  {
    if rs != [] {
      StoredLength(crc, id, rs[..|rs| - 1]);
    }
  }

  /** A healthy log keeps all of its records in every crash exactly if all of its active file
      has been synced. */
  lemma StableIff(crc: Checksum, w: State, rs: seq<seq<Record>>)
    requires Holds(crc, w, rs) && !w.poisoned
    ensures (forall image :: CrashImage(w, image) ==>
               AllStored(crc, Surviving(crc, w, rs, image)) == AllStored(crc, rs)) <==> w.synced == w.activeLen
  {
    hide Holds, AllStored, Frames, Surviving;
    HoldsLast(crc, w, rs);
    FileLen(crc, w, rs);
    if w.synced < w.activeLen {
      var image := CutImage(crc, w, rs);
    } else {
      forall image | CrashImage(w, image) ensures AllStored(crc, Surviving(crc, w, rs, image)) == AllStored(crc, rs) {
        SurvivorsPrefix(crc, w, rs, image);
      }
    }
  }

  lemma CutImage(crc: Checksum, w: State, rs: seq<seq<Record>>) returns (image: seq<Bytes>)
    requires Holds(crc, w, rs) && w.synced < w.activeLen
    ensures Wellformed(w) && AllEncodable(rs) && CrashImage(w, image)
    ensures AllStored(crc, Surviving(crc, w, rs, image)) != AllStored(crc, rs)
  {
    HoldsLast(crc, w, rs);
    HoldsSized(crc, w, rs);
    FileLen(crc, w, rs);
    hide Holds, AllStored, Frames, WholeWithin;
    image := w.segments[..w.active] + [w.segments[w.active][..w.synced]];
    var last := rs[w.active];
    var j := WholeWithin(crc, last, w.synced);
    assert last[..|last|] == last;
    var kept := Surviving(crc, w, rs, image);
    assert kept[..w.active] == rs[..w.active];
    FewerStored(crc, rs, kept);
  }

  lemma FileLen(crc: Checksum, w: State, rs: seq<seq<Record>>)
    requires Holds(crc, w, rs)
    ensures Wellformed(w) && w.synced <= w.activeLen <= |w.segments[w.active]|
  {
  }

  lemma FewerStored(crc: Checksum, rs: seq<seq<Record>>, kept: seq<seq<Record>>)
    requires AllEncodable(rs) && AllEncodable(kept) && rs != [] && |kept| == |rs|
    requires kept[..|rs| - 1] == rs[..|rs| - 1] && |kept[|rs| - 1]| < |rs[|rs| - 1]|
    ensures AllStored(crc, kept) != AllStored(crc, rs)
  {
    hide Stored;
    StoredLength(crc, |rs| - 1, rs[|rs| - 1]);
    StoredLength(crc, |rs| - 1, kept[|rs| - 1]);
  }

  // ----- Positions along a life -----

  /** The append at step `i` returned this position. */
  ghost predicate Returned(crc: Checksum, ws: seq<State>, ops: seq<Op>, i: nat, lsn: Lsn)
    requires i < |ops| && i < |ws|
  {
    ops[i].AppendOp? && Wellformed(ws[i]) && Append(crc, ws[i], ops[i].record, ops[i].faults).1 == Ok(lsn)
  }

  /** Without a crash the records only grow. */
  lemma {:induction false} RecordsGrow(crc: Checksum, ws: seq<State>, ops: seq<Op>, rss: seq<seq<seq<Record>>>, i: nat,
                                       j: nat)
    requires Traced(crc, ws, ops, rss) && i <= j < |rss|
    requires forall m :: i <= m < j ==> !ops[m].CrashOp?
    ensures AllEncodable(rss[i]) && AllEncodable(rss[j]) && AllStored(crc, rss[i]) <= AllStored(crc, rss[j])
    decreases j
  {
    hide Holds, AllStored, Append;
    HoldsEncodable(crc, ws, rss);
    if i < j {
      RecordsGrow(crc, ws, ops, rss, i, j - 1);
      assert Moved(crc, ws[j - 1], rss[j - 1], ops[j - 1], ws[j - 1 + 1], rss[j - 1 + 1]);
    }
  }

  /** Positions returned between two reopenings strictly increase. */
  lemma LsnsRise(crc: Checksum, ws: seq<State>, ops: seq<Op>, i: nat, j: nat, a: Lsn, b: Lsn)
    requires IsLife(crc, ws, ops) && i < j < |ops| && forall m :: i <= m <= j ==> !ops[m].CrashOp?
    requires Returned(crc, ws, ops, i, a) && Returned(crc, ws, ops, j, b)
    ensures a.Before(b)
  {
    hide Holds, AllStored, Append, Next, Open;
    var rss := LifeHolds(crc, ws, ops, j + 1);
    HoldsEncodable(crc, ws, rss);
    RecordsGrow(crc, ws, ops, rss, i + 1, j);
    assert Moved(crc, ws[i], rss[i], ops[i], ws[i + 1], rss[i + 1]);
    assert Moved(crc, ws[j], rss[j], ops[j], ws[j + 1], rss[j + 1]);
    var all, first := AllStored(crc, rss[j + 1]), AllStored(crc, rss[i + 1]);
    assert first[|first| - 1].lsn == a && first <= AllStored(crc, rss[j]) <= all;
    assert all[|first| - 1] == first[|first| - 1] && all[|all| - 1].lsn == b;
    PositionsAscend(crc, rss[j + 1], |first| - 1, |all| - 1);
  }

  /** At every moment of every life each file is within the segment size and the bytes counted
      are within the limit; a handle that is not poisoned counts all of them. */
  lemma LifeSizes(crc: Checksum, ws: seq<State>, ops: seq<Op>, k: nat)
    requires IsLife(crc, ws, ops) && k < |ws|
    ensures forall i :: 0 <= i < |ws[k].segments| ==> |ws[k].segments[i]| <= ws[k].options.segmentSize
    ensures ws[k].totalLen <= ws[k].options.maxSize
    ensures SumLen(ws[k].segments) == ws[k].totalLen + (|ws[k].segments[ws[k].active]| - ws[k].activeLen)
    ensures !ws[k].poisoned ==> ws[k].totalLen == SumLen(ws[k].segments)
  {
    hide Holds, AllStored, Next, Open, SumLen;
    var rss := LifeHolds(crc, ws, ops, k);
    SizesHold(crc, ws[k], rss[k]);
  }

  // ----- A log that cannot be reopened -----

  const TINY := Options(100, 1000, false)
  const NO_FAULTS := Faults(false, false, false, None, false)

  function Blank(n: nat): Record {
    Record(1, Zeros(n))
  }

  /** The directory cannot be synced while rotating, so an empty segment stays behind; a
      smaller record then goes to the old segment, and a crash cuts it. */
  lemma RotationRefused(crc: Checksum) returns (ws: seq<State>, ops: seq<Op>, image: seq<Bytes>)
    ensures IsLife(crc, ws, ops) && |ws| == 4 && CrashImage(ws[3], image)
    ensures ops == [AppendOp(Blank(30), NO_FAULTS), AppendOp(Blank(30), NO_FAULTS.(dirSync := true)),
                    AppendOp(Blank(4), NO_FAULTS)]
    ensures ws[3] == State(TINY, [Encoded(crc, Blank(30)) + Encoded(crc, Blank(4)), []], 0, 98, 98, 62, false)
    ensures Open(crc, image, TINY, 62) == Err(CorruptRecord(Lsn(0, 62), IncompleteRecord))
  {
    var a, b := Encoded(crc, Blank(30)), Encoded(crc, Blank(4));
    var w0 := State(TINY, [[]], 0, 0, 0, 0, false);
    var w1 := State(TINY, [a], 0, 62, 62, 0, false);
    var w2 := State(TINY, [a, []], 0, 62, 62, 62, false);
    var w3 := State(TINY, [a + b, []], 0, 98, 98, 62, false);
    ops := [AppendOp(Blank(30), NO_FAULTS), AppendOp(Blank(30), NO_FAULTS.(dirSync := true)),
            AppendOp(Blank(4), NO_FAULTS)];
    ws := [w0, w1, w2, w3];
    image := [(a + b)[..70], []];
    FirstOpen(crc, w0);
    FirstAppend(crc, w0, w1);
    FailedRotation(crc, w1, w2);
    SmallAppend(crc, w2, w3);
    RefusedImage(crc, w3, image);
  }

  lemma FirstOpen(crc: Checksum, w: State)
    requires w == State(TINY, [[]], 0, 0, 0, 0, false)
    ensures Open(crc, [], TINY, 0) == Ok(w) && Sized(TINY)
  {
    assert SumLen([[]]) == 0;
  }

  lemma FirstAppend(crc: Checksum, w: State, w': State)
    requires w == State(TINY, [[]], 0, 0, 0, 0, false)
    requires w' == State(TINY, [Encoded(crc, Blank(30))], 0, 62, 62, 0, false)
    ensures Append(crc, w, Blank(30), NO_FAULTS).0 == w'
  {
    hide Encoded;
    assert [] + Encoded(crc, Blank(30)) == Encoded(crc, Blank(30));
  }

  lemma FailedRotation(crc: Checksum, w: State, w': State)
    requires w == State(TINY, [Encoded(crc, Blank(30))], 0, 62, 62, 0, false)
    requires w' == State(TINY, [Encoded(crc, Blank(30)), []], 0, 62, 62, 62, false)
    ensures Append(crc, w, Blank(30), NO_FAULTS.(dirSync := true)).0 == w'
  {
    hide Encoded;
  }

  lemma SmallAppend(crc: Checksum, w: State, w': State)
    requires w == State(TINY, [Encoded(crc, Blank(30)), []], 0, 62, 62, 62, false)
    requires w' == State(TINY, [Encoded(crc, Blank(30)) + Encoded(crc, Blank(4)), []], 0, 98, 98, 62, false)
    ensures Append(crc, w, Blank(4), NO_FAULTS).0 == w'
  {
    hide Encoded;
  }

  lemma RefusedImage(crc: Checksum, w: State, image: seq<Bytes>)
    requires w == State(TINY, [Encoded(crc, Blank(30)) + Encoded(crc, Blank(4)), []], 0, 98, 98, 62, false)
    requires image == [(Encoded(crc, Blank(30)) + Encoded(crc, Blank(4)))[..70], []]
    ensures CrashImage(w, image) && Open(crc, image, TINY, 62) == Err(CorruptRecord(Lsn(0, 62), IncompleteRecord))
  {
    hide Encoded;
    var rs := [[Blank(30), Blank(4)]];
    TwoFrames(crc);
    SmallHolds(crc, w, rs);
    hide Frames, Holds, Recover;
    ReopenExact(crc, w, rs, image);
  }

  lemma TwoFrames(crc: Checksum)
    ensures Encodable([Blank(30), Blank(4)]) && Encodable([Blank(30)])
    ensures Frames(crc, [Blank(30), Blank(4)]) == Encoded(crc, Blank(30)) + Encoded(crc, Blank(4))
    ensures Frames(crc, [Blank(30)]) == Encoded(crc, Blank(30))
    ensures WholeWithin(crc, [Blank(30), Blank(4)], 70) == 1 && [Blank(30), Blank(4)][..1] == [Blank(30)]
  {
    hide Encoded;
    var both := [Blank(30), Blank(4)];
    assert both[..1] == [Blank(30)] && both[..2] == both && both[..0] == [];
    assert [Blank(30)][..0] == [];
  }

  lemma SmallHolds(crc: Checksum, w: State, rs: seq<seq<Record>>)
    requires rs == [[Blank(30), Blank(4)]] && Encodable(rs[0])
    requires Frames(crc, rs[0]) == Encoded(crc, Blank(30)) + Encoded(crc, Blank(4))
    requires w == State(TINY, [Encoded(crc, Blank(30)) + Encoded(crc, Blank(4)), []], 0, 98, 98, 62, false)
    ensures Holds(crc, w, rs)
  {
    hide Encoded, Frames;
    assert rs[..0] == [];
    assert TotalFrames(crc, rs) == 98;
    var file := w.segments[0];
    assert file[..98] == file;
  }

  /** The same life, but only the process dies. The log is reopened with the empty file as its
      active one, so that a sync that succeeds does not reach the bytes of the old file that
      were not synced: a power failure then takes a record out of the middle. */
  lemma LeftBehind(crc: Checksum) returns (ws: seq<State>, ops: seq<Op>, again: State, synced: State)
    ensures IsLife(crc, ws, ops) && |ws| == 4 && ws[3].synced == |Encoded(crc, Blank(30))|
    ensures Open(crc, ws[3].segments, TINY, 0) == Ok(again)
    ensures StreamAll(crc, again.segments, 0, 100)
         == ([StoredRecord(Lsn(0, 0), Blank(30)), StoredRecord(Lsn(0, 62), Blank(4))], None)
    ensures Wellformed(again)
    ensures var (w, r) := Append(crc, again, Blank(4), NO_FAULTS);
            r == Ok(Lsn(1, 0)) && Sync(w, false) == (synced, Ok(Unit))
    ensures |synced.segments| == 2 && 62 <= |synced.segments[0]|
    ensures var image := [synced.segments[0][..62], synced.segments[1]];
            && Open(crc, image, TINY, 36).Ok?
            && StreamAll(crc, Open(crc, image, TINY, 36).value.segments, 0, 100)
            == ([StoredRecord(Lsn(0, 0), Blank(30)), StoredRecord(Lsn(1, 0), Blank(4))], None)
  {
    hide Encoded, Open, StreamAll, Next, Holds, Append, AllStored, Frames;
    var cut;
    ws, ops, cut := RotationRefused(crc);
    var a, b := Encoded(crc, Blank(30)), Encoded(crc, Blank(4));
    again := State(TINY, [a + b, []], 1, 0, 98, 0, false);
    synced := State(TINY, [a + b, b], 1, 36, 134, 36, false);
    TwoGroups(crc);
    OpensClean(crc, [a + b, []], [[Blank(30), Blank(4)], []], 0, again);
    OpensClean(crc, [a, b], [[Blank(30)], [Blank(4)]], 36, State(TINY, [a, b], 1, 36, 98, 36, false));
    SyncsNewFile(crc, again, synced);
    assert (a + b)[..62] == a;
  }

  /** Files that are exactly some records are opened as they are and stream them. */
  lemma OpensClean(crc: Checksum, image: seq<Bytes>, groups: seq<seq<Record>>, stable: nat, w: State)
    requires AllEncodable(groups) && |image| == |groups| == 2 && AllFit(crc, groups, 100)
    requires Exact(crc, image, groups, 2) && TotalFrames(crc, groups) <= 1000
    requires var last := |image[1]|;
             w == State(TINY, image, 1, last, |image[0]| + last, Min(stable, last), false)
    ensures Open(crc, image, TINY, stable) == Ok(w)
    ensures StreamAll(crc, w.segments, 0, 100) == (AllStored(crc, groups), None)
  {
    hide Frames, TotalFrames, StreamAll, Scan, AllStored, Holds, AllFit, Exact, RecoverFrom;
    RecoverExact(crc, image, groups, 100, 0);
    NothingToRepair(crc, image, 100);
    TwoLengths(image);
    OpenIs(crc, TINY, image, image, groups, stable);
  }

  lemma NothingToRepair(crc: Checksum, image: seq<Bytes>, segmentSize: nat)
    ensures RecoverFrom(crc, image, segmentSize, |image|) == Ok(image)
  {
  }

  lemma TwoLengths(image: seq<Bytes>)
    requires |image| == 2
    ensures SumLen(image) == |image[0]| + |image[1]|
  {
    var first := image[..1];
    assert first[..0] == [];
    assert SumLen(first) == |image[0]|;
  }

  lemma SyncsNewFile(crc: Checksum, w: State, w': State)
    requires var a, b := Encoded(crc, Blank(30)), Encoded(crc, Blank(4));
             && w == State(TINY, [a + b, []], 1, 0, 98, 0, false)
             && w' == State(TINY, [a + b, b], 1, 36, 134, 36, false)
    ensures var (put, r) := Append(crc, w, Blank(4), NO_FAULTS);
            r == Ok(Lsn(1, 0)) && Sync(put, false) == (w', Ok(Unit))
  {
    hide Encoded;
    var a, b := Encoded(crc, Blank(30)), Encoded(crc, Blank(4));
    assert [] + b == b && [a + b, []][1 := b] == [a + b, b];
  }

  lemma TwoGroups(crc: Checksum)
    ensures var a, b := Encoded(crc, Blank(30)), Encoded(crc, Blank(4));
            var one, two := [[Blank(30), Blank(4)], []], [[Blank(30)], [Blank(4)]];
            && |a| == 62 && |b| == 36 && AllEncodable(one) && AllEncodable(two)
            && AllFit(crc, one, 100) && AllFit(crc, two, 100)
            && Exact(crc, [a + b, []], one, 2) && Exact(crc, [a, b], two, 2)
            && TotalFrames(crc, one) == 98 == TotalFrames(crc, two)
            && AllStored(crc, one) == [StoredRecord(Lsn(0, 0), Blank(30)), StoredRecord(Lsn(0, 62), Blank(4))]
            && AllStored(crc, two) == [StoredRecord(Lsn(0, 0), Blank(30)), StoredRecord(Lsn(1, 0), Blank(4))]
  {
    hide Encoded;
    TwoFrames(crc);
    var one, two := [[Blank(30), Blank(4)], []], [[Blank(30)], [Blank(4)]];
    assert one[..1] == [[Blank(30), Blank(4)]] && two[..1] == [[Blank(30)]];
    assert [[Blank(30), Blank(4)]][..0] == [] && [[Blank(30)]][..0] == [];
    assert [Blank(4)][..0] == [] && [Blank(30), Blank(4)][..1] == [Blank(30)] && [Blank(30)][..0] == [];
  }
}
