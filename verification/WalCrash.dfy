/** What a crash may leave of the log, and what reopening makes of it. */
module WalCrash {
  import opened Types
  import opened WalFormat
  import opened WalSegment
  import opened WalLog

  /** The files after a crash: earlier segments whole, any prefix of the active segment that
      is no shorter than what was synced, and an empty file past it at most where one was
      left behind. */
  ghost predicate CrashImage(w: State, image: seq<Bytes>)
    requires Wellformed(w)
  {
    && (|image| == w.active + 1 || (|image| == w.active + 2 && |w.segments| > w.active + 1
                                    && image[w.active + 1] == []))
    && (forall i :: 0 <= i < w.active ==> image[i] == w.segments[i])
    && w.synced <= |image[w.active]|
    && image[w.active] <= w.segments[w.active]
  }

  /** A crash that leaves `image`, with `stable` bytes of the active file on stable storage:
      all of what is left after a power failure, perhaps no more than before when only the
      process died. */
  ghost predicate AnyCrash(w: State, image: seq<Bytes>, stable: nat)
    requires Wellformed(w)
  {
    CrashImage(w, image) && w.synced <= stable <= |image[w.active]|
  }

  /** Where an empty file follows the active one, all of the active one is taken to be stable. */
  ghost predicate Crash(w: State, image: seq<Bytes>, stable: nat)
    requires Wellformed(w)
  {
    AnyCrash(w, image, stable) && (|image| == w.active + 2 ==> stable == |image[w.active]|)
  }

  /** How many of the records lie wholly within the first `n` bytes. */
  ghost function WholeWithin(crc: Checksum, rs: seq<Record>, n: nat): (j: nat)
    requires Encodable(rs)
    ensures j <= |rs|
    ensures |Frames(crc, rs[..j])| <= n
    ensures j < |rs| ==> n < |Frames(crc, rs[..j + 1])|
  {
    if |Frames(crc, rs)| <= n then
      assert rs[..|rs|] == rs;
      |rs|
    else
      var init := rs[..|rs| - 1];
      var j := WholeWithin(crc, init, n);
      assert init[..j] == rs[..j];
      assert j < |init| ==> init[..j + 1] == rs[..j + 1];
      assert j == |init| ==> rs[..j + 1] == rs;
      j
  }

  /** The records that survive: all of the earlier segments, and those within the image. */
  ghost function Surviving(crc: Checksum, w: State, rs: seq<seq<Record>>, image: seq<Bytes>): (kept: seq<seq<Record>>)
    requires Holds(crc, w, rs) && CrashImage(w, image)
    ensures |kept| == |rs| && AllEncodable(kept)
  {
    rs[w.active := rs[w.active][..WholeWithin(crc, rs[w.active], |image[w.active]|)]]
  }

  /** What is left of the active segment: its whole records, then part of one more. */
  lemma ImageShape(crc: Checksum, w: State, rs: seq<seq<Record>>, image: seq<Bytes>)
    requires Holds(crc, w, rs) && CrashImage(w, image)
    ensures var whole := Frames(crc, Surviving(crc, w, rs, image)[w.active]);
            var file := image[w.active];
            && |whole| <= |file| && |whole| <= w.options.segmentSize
            && file[..|whole|] == whole
            && TornTail(crc, file[|whole|..], |whole|, w.options.segmentSize)
  {
    hide TotalFrames, TornTail, Frames;
    var last, file, n := rs[w.active], image[w.active], |image[w.active]|;
    var j := WholeWithin(crc, last, n);
    FramesPrefix(crc, last, j);
    var whole := Frames(crc, last[..j]);
    assert w.segments[w.active][..w.activeLen] == Frames(crc, last);
    assert whole <= w.segments[w.active];
    assert file[..|whole|] == whole;
    if j < |last| {
      FramesPrefix(crc, last, j + 1);
      TornInside(crc, w.segments[w.active], file, whole, last[j], Frames(crc, last), w.options.segmentSize);
    } else {
      assert last[..j] == last;
      TornAfter(crc, w, file, whole);
    }
  }

  lemma TornInside(crc: Checksum, all: Bytes, file: Bytes, whole: Bytes, record: Record, frames: Bytes,
                   segmentSize: nat)
    requires |record.payload| <= U32_MAX && file <= all && frames <= all
    requires whole + Encoded(crc, record) <= frames && |frames| <= segmentSize
    requires |whole| <= |file| < |whole| + HEADER_LEN + |record.payload|
    ensures TornTail(crc, file[|whole|..], |whole|, segmentSize)
  {
    hide Encoded;
    var cut := |file| - |whole|;
    assert file[|whole|..] == Encoded(crc, record)[..cut];
  }

  lemma TornAfter(crc: Checksum, w: State, file: Bytes, whole: Bytes)
    requires Wellformed(w) && file <= w.segments[w.active] && |whole| == w.activeLen <= |file|
    requires if w.poisoned then TornTail(crc, w.segments[w.active][w.activeLen..], w.activeLen, w.options.segmentSize)
             else |w.segments[w.active]| == w.activeLen
    ensures TornTail(crc, file[|whole|..], |whole|, w.options.segmentSize)
  {
    hide Encoded;
    var tail, cutTail := w.segments[w.active][w.activeLen..], file[|whole|..];
    if w.poisoned && tail != [] {
      var record: Record, cut: nat :|
        && |record.payload| <= U32_MAX && w.activeLen + HEADER_LEN + |record.payload| <= w.options.segmentSize
        && cut < HEADER_LEN + |record.payload| && tail == Encoded(crc, record)[..cut];
      assert cutTail == Encoded(crc, record)[..|cutTail|];
    }
  }

  // ----- Reopening -----

  lemma {:induction false} RecoverExact(crc: Checksum, image: seq<Bytes>, rs: seq<seq<Record>>, segmentSize: nat,
                                        id: nat)
    requires AllEncodable(rs) && |rs| <= |image| && AllFit(crc, rs, segmentSize) && segmentSize <= U64_MAX
    requires id <= |rs| && Exact(crc, image, rs, |rs|)
    ensures RecoverFrom(crc, image, segmentSize, id) == RecoverFrom(crc, image, segmentSize, |rs|)
    decreases |rs| - id
  {
    hide Scan, Frames;
    if id < |rs| {
      ScanClean(crc, rs[id], id, segmentSize);
      RecoverExact(crc, image, rs, segmentSize, id + 1);
    }
  }

  lemma ScanClean(crc: Checksum, rs: seq<Record>, id: nat, segmentSize: nat)
    requires Encodable(rs) && |Frames(crc, rs)| <= segmentSize <= U64_MAX
    ensures Scan(crc, Frames(crc, rs), id, 0, segmentSize) == Ok(Clean(|Frames(crc, rs)|))
  {
    assert rs[..0] == [];
    assert Frames(crc, rs) + [] == Frames(crc, rs);
    ScanFrames(crc, rs, [], id, segmentSize, 0);
  }

  lemma ScanTorn(crc: Checksum, file: Bytes, rs: seq<Record>, id: nat, segmentSize: nat)
    requires Encodable(rs) && |Frames(crc, rs)| <= |file| && |Frames(crc, rs)| <= segmentSize <= U64_MAX
    requires file[..|Frames(crc, rs)|] == Frames(crc, rs)
    requires TornTail(crc, file[|Frames(crc, rs)|..], |Frames(crc, rs)|, segmentSize)
    ensures var len := |Frames(crc, rs)|;
            Scan(crc, file, id, 0, segmentSize) == Ok(if |file| == len then Clean(len) else IncompleteTail(len))
  {
    hide Scan, TornTail;
    var len := |Frames(crc, rs)|;
    assert rs[..0] == [];
    assert Frames(crc, rs) + file[len..] == file;
    ScanFrames(crc, rs, file[len..], id, segmentSize, 0);
  }

  /** Reopening after a crash cuts the active segment back to its last whole record. Only if
      an empty segment follows it must the crash have fallen between records: otherwise the
      log is refused. */
  lemma ReopenExact(crc: Checksum, w: State, rs: seq<seq<Record>>, image: seq<Bytes>)
    requires Holds(crc, w, rs) && CrashImage(w, image)
    ensures var kept := Surviving(crc, w, rs, image);
            var whole := Frames(crc, kept[w.active]);
            Recover(crc, image, w.options.segmentSize) ==
            if |image| == w.active + 1 || whole == image[w.active] then Ok(image[w.active := whole])
            else Err(CorruptRecord(Lsn(w.active, |whole|), IncompleteRecord))
  {
    hide Frames, TotalFrames, Scan, TornTail;
    var size, kept := w.options.segmentSize, Surviving(crc, w, rs, image);
    var whole, file := Frames(crc, kept[w.active]), image[w.active];
    ImageShape(crc, w, rs, image);
    EarlierExact(crc, w, rs, image);
    RecoverExact(crc, image, rs[..w.active], size, 0);
    ScanTorn(crc, file, kept[w.active], w.active, size);
    assert file[..|whole|] == whole;
    if |file| == |whole| {
      assert file == whole && image[w.active := whole] == image;
      if |image| == w.active + 2 {
        EmptyFrames(crc);
        ScanClean(crc, [], w.active + 1, size);
        assert RecoverFrom(crc, image, size, w.active + 2) == Ok(image);
        assert RecoverFrom(crc, image, size, w.active + 1) == Ok(image);
      }
    }
  }

  lemma EmptyFrames(crc: Checksum)
    ensures Encodable([]) && Frames(crc, []) == []
  {
  }

  lemma EarlierExact(crc: Checksum, w: State, rs: seq<seq<Record>>, image: seq<Bytes>)
    requires Holds(crc, w, rs) && CrashImage(w, image)
    ensures AllEncodable(rs[..w.active]) && AllFit(crc, rs[..w.active], w.options.segmentSize)
    ensures Exact(crc, image, rs[..w.active], w.active)
  {
    hide Frames, TotalFrames, ActiveHolds;
  }

  // ----- Streaming what survived -----

  lemma {:induction false} StreamExact(crc: Checksum, segments: seq<Bytes>, rs: seq<seq<Record>>, segmentSize: nat,
                                       id: nat)
    requires AllEncodable(rs) && |segments| == |rs| && AllFit(crc, rs, segmentSize) && segmentSize <= U64_MAX
    requires id <= |rs| && Exact(crc, segments, rs, |rs|)
    ensures AllStored(crc, rs[..id]) <= AllStored(crc, rs)
    ensures StreamAll(crc, segments, id, segmentSize) == (AllStored(crc, rs)[|AllStored(crc, rs[..id])|..], None)
    decreases |rs| - id
  {
    hide Stream, Frames, Stored, AllStored;
    var all := AllStored(crc, rs);
    if id < |rs| {
      StreamExact(crc, segments, rs, segmentSize, id + 1);
      StreamSegment(crc, rs[id], id, segmentSize);
      AllStoredNext(crc, rs, id);
      var a, b := |AllStored(crc, rs[..id])|, |AllStored(crc, rs[..id + 1])|;
      assert all[a..] == all[a..b] + all[b..];
      assert all[a..b] == all[..b][a..] == Stored(crc, id, rs[id]);
    } else {
      assert rs[..id] == rs;
      assert all[|all|..] == [];
    }
  }

  lemma AllStoredNext(crc: Checksum, rs: seq<seq<Record>>, id: nat)
    requires AllEncodable(rs) && id < |rs|
    ensures AllStored(crc, rs[..id + 1]) == AllStored(crc, rs[..id]) + Stored(crc, id, rs[id])
  {
    hide Stored;
    var next := rs[..id + 1];
    assert next[..id] == rs[..id];
  }

  lemma StreamSegment(crc: Checksum, rs: seq<Record>, id: nat, segmentSize: nat)
    requires Encodable(rs) && |Frames(crc, rs)| <= segmentSize <= U64_MAX
    ensures Stream(crc, Frames(crc, rs), id, 0, segmentSize) == (Stored(crc, id, rs), None)
  {
    assert rs[..0] == [];
    StreamFrames(crc, rs, id, segmentSize, 0);
    assert Stored(crc, id, rs)[0..] == Stored(crc, id, rs);
  }

  /** The number of whole records kept, with what was synced, in order and in place: the
      surviving records are a prefix of those the log held. */
  lemma SurvivorsPrefix(crc: Checksum, w: State, rs: seq<seq<Record>>, image: seq<Bytes>)
    requires Holds(crc, w, rs) && CrashImage(w, image)
    ensures AllStored(crc, Surviving(crc, w, rs, image)) <= AllStored(crc, rs)
    ensures w.synced == w.activeLen ==> Surviving(crc, w, rs, image) == rs
  {
    hide TotalFrames, Frames, AllFit, Exact;
    var j, last := WholeWithin(crc, rs[w.active], |image[w.active]|), rs[w.active];
    var kept := Surviving(crc, w, rs, image);
    assert kept[..w.active] == rs[..w.active];
    StoredTake(crc, w.active, last, j);
    if w.synced == w.activeLen {
      AllWithin(crc, last, |image[w.active]|);
      assert last[..|last|] == last && kept == rs;
    }
  }

  lemma AllWithin(crc: Checksum, rs: seq<Record>, n: nat)
    requires Encodable(rs) && |Frames(crc, rs)| <= n
    ensures WholeWithin(crc, rs, n) == |rs|
  {
  }

  lemma {:induction false} StoredTake(crc: Checksum, id: nat, rs: seq<Record>, j: nat)
    requires Encodable(rs) && j <= |rs|
    ensures Stored(crc, id, rs[..j]) <= Stored(crc, id, rs)
    decreases |rs| - j
  {
    if j < |rs| {
      StoredPrefix(crc, id, rs, j);
      StoredTake(crc, id, rs, j + 1);
    } else {
      assert rs[..j] == rs;
    }
  }

  /** The surviving records by segment, with the empty segment if one was left. */
  ghost function Groups(crc: Checksum, w: State, rs: seq<seq<Record>>, image: seq<Bytes>): (groups: seq<seq<Record>>)
    requires Holds(crc, w, rs) && CrashImage(w, image)
    ensures |groups| == |image| && AllEncodable(groups)
  {
    var kept := Surviving(crc, w, rs, image);
    if |image| == w.active + 1 then kept else kept + [[]]
  }

  /** The reopened log: healthy, exactly the surviving records, which it streams back at the
      positions append returned. */
  lemma ReopenedHolds(crc: Checksum, w: State, rs: seq<seq<Record>>, image: seq<Bytes>, stable: nat)
    requires Holds(crc, w, rs) && CrashImage(w, image)
    requires |image| == w.active + 1 || Frames(crc, Surviving(crc, w, rs, image)[w.active]) == image[w.active]
    ensures Open(crc, image, w.options, stable).Ok?
    ensures var w', groups := Open(crc, image, w.options, stable).value, Groups(crc, w, rs, image);
            && Holds(crc, w', groups) && !w'.poisoned && w'.options == w.options
            && w'.synced == StableLen(image, w'.activeLen, stable)
            && AllStored(crc, groups) == AllStored(crc, Surviving(crc, w, rs, image))
            && StreamAll(crc, w'.segments, 0, w.options.segmentSize) == (AllStored(crc, groups), None)
  {
    HoldsLast(crc, w, rs);
    KeptFits(crc, w, rs, image);
    ReopenExact(crc, w, rs, image);
    AllStoredGrows(crc, Surviving(crc, w, rs, image));
    hide Frames, TotalFrames, Recover, StreamAll, SumLen, Holds, AllStored, WholeWithin, Exact, AllFit, Surviving;
    var segments := image[w.active := Frames(crc, Surviving(crc, w, rs, image)[w.active])];
    OpenIs(crc, w.options, image, segments, Groups(crc, w, rs, image), stable);
  }

  lemma OpenIs(crc: Checksum, options: Options, image: seq<Bytes>, segments: seq<Bytes>, groups: seq<seq<Record>>,
               stable: nat)
    requires Sized(options) && AllEncodable(groups) && groups != [] && |segments| == |groups|
    requires AllFit(crc, groups, options.segmentSize) && Exact(crc, segments, groups, |groups|)
    requires TotalFrames(crc, groups) <= options.maxSize && Recover(crc, image, options.segmentSize) == Ok(segments)
    ensures Open(crc, image, options, stable).Ok?
    ensures var w := Open(crc, image, options, stable).value;
            && Holds(crc, w, groups) && !w.poisoned && w.options == options
            && w.synced == StableLen(image, w.activeLen, stable)
            && StreamAll(crc, w.segments, 0, options.segmentSize) == (AllStored(crc, groups), None)
  {
    FramesSum(crc, groups, segments);
    hide Frames, TotalFrames, Recover, StreamAll, SumLen, AllStored, Holds, AllFit, Exact;
    var last := |segments[|segments| - 1]|;
    OpenedHolds(crc, options, segments, groups, StableLen(image, last, stable));
    StreamExact(crc, segments, groups, options.segmentSize, 0);
    assert groups[..0] == [];
    NoneStored(crc);
  }

  lemma NoneStored(crc: Checksum)
    ensures AllEncodable([]) && AllStored(crc, []) == []
  {
  }

  lemma OpenedHolds(crc: Checksum, options: Options, segments: seq<Bytes>, groups: seq<seq<Record>>, synced: nat)
    requires Sized(options) && AllEncodable(groups) && groups != [] && |segments| == |groups|
    requires AllFit(crc, groups, options.segmentSize) && Exact(crc, segments, groups, |groups|)
    requires SumLen(segments) == TotalFrames(crc, groups) <= options.maxSize && synced <= |segments[|segments| - 1]|
    ensures var last := |segments[|segments| - 1]|;
            Holds(crc, State(options, segments, |segments| - 1, last, SumLen(segments), synced, false), groups)
  {
    hide Frames, TotalFrames, SumLen;
    var file := segments[|segments| - 1];
    assert file[..|file|] == file;
  }

  /** What survives fits as before. */
  lemma KeptFits(crc: Checksum, w: State, rs: seq<seq<Record>>, image: seq<Bytes>)
    requires Holds(crc, w, rs) && CrashImage(w, image)
    ensures var segments := image[w.active := Frames(crc, Surviving(crc, w, rs, image)[w.active])];
            var groups := Groups(crc, w, rs, image);
            && Sized(w.options)
            && AllFit(crc, groups, w.options.segmentSize) && Exact(crc, segments, groups, |groups|)
            && TotalFrames(crc, groups) <= w.options.maxSize
  {
    hide Frames, TotalFrames, TornTail;
    var kept := Surviving(crc, w, rs, image);
    ImageShape(crc, w, rs, image);
    EmptyFrames(crc);
    AllStoredGrows(crc, kept);
    FramesPrefix(crc, rs[w.active], WholeWithin(crc, rs[w.active], |image[w.active]|));
    TotalShrinks(crc, rs, kept);
  }

  lemma TotalShrinks(crc: Checksum, rs: seq<seq<Record>>, kept: seq<seq<Record>>)
    requires AllEncodable(rs) && AllEncodable(kept) && rs != [] && |kept| == |rs|
    requires kept[..|rs| - 1] == rs[..|rs| - 1] && |Frames(crc, kept[|rs| - 1])| <= |Frames(crc, rs[|rs| - 1])|
    ensures TotalFrames(crc, kept) <= TotalFrames(crc, rs)
  {
  }
}
