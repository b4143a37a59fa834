/** The store over its log: saving, crashing at any byte, reopening. */
module StoreRun {
  import opened Types
  import opened RaftCore
  import opened Store
  import W = WalFormat
  import opened WalSegment
  import opened WalLog
  import opened WalCrash
  import opened WalRun

  datatype RaftStore = RaftStore(wal: State, durable: Persistent)

  /** What fails during one save: the calls of the append, and the sync after it. */
  datatype SaveFaults = SaveFaults(append: Faults, sync: bool)

  function RecordFor(codec: Codec, durable: Persistent, current: Persistent): W.Record {
    W.Record(RAFT_STATE_KIND, codec.encode(DeltaFor(durable, current)))
  }

  /** Appends the delta and forces it to disk; only then does the durable copy move on. */
  function Save(crc: W.Checksum, codec: Codec, st: RaftStore, current: Persistent, f: SaveFaults)
    : (r: (RaftStore, Outcome<Unit>))
    requires Wellformed(st.wal)
    ensures Wellformed(r.0.wal)
  {
    if current.log.snapshotIndex != st.durable.log.snapshotIndex then (st, Failed(SnapshotUnsupported))
    else
      var (appended, r) := Append(crc, st.wal, RecordFor(codec, st.durable, current), f.append);
      if r.Err? then (st.(wal := appended), Failed(WalFailed(r.error)))
      else
        var (synced, r') := Sync(appended, f.sync);
        if r'.Err? then (st.(wal := synced), Failed(WalFailed(r'.error)))
        else (RaftStore(synced, current), Done(Unit))
  }

  /** Replays records from a starting state. */
  function Replay(codec: Codec, state: Persistent, records: seq<W.StoredRecord>): Outcome<Persistent> {
    if records == [] then Done(state)
    else
      match Replay(codec, state, records[..|records| - 1])
      case Failed(e) => Failed(e)
      case Done(s) =>
        var record := records[|records| - 1].record;
        if record.kind != RAFT_STATE_KIND then Failed(UnexpectedKind(record.kind))
        else
          match codec.decode(record.payload)
          case None => Failed(DecodeFailed)
          case Some(delta) => ApplyDelta(s, delta)
  }

  /** Opens a listed directory and replays what it streams. */
  function OpenStore(crc: W.Checksum, codec: Codec, listed: seq<Bytes>, options: WalLog.Options, stable: nat,
                     initial: Persistent): Outcome<RaftStore> {
    match Open(crc, listed, options, stable)
    case Err(e) => Failed(WalFailed(e))
    case Ok(wal) =>
      var (records, error) := StreamAll(crc, wal.segments, 0, options.segmentSize);
      match Replay(codec, initial, records)
      case Failed(e) => Failed(e)
      case Done(durable) => if error.Some? then Failed(WalFailed(error.value)) else Done(RaftStore(wal, durable))
  }

  // ----- The store's invariant -----

  /** The handle is healthy and its log replays to the durable copy. */
  ghost predicate StoreOk(crc: W.Checksum, codec: Codec, initial: Persistent, st: RaftStore, rs: seq<seq<W.Record>>) {
    && Faithful(codec) && Holds(crc, st.wal, rs) && !st.wal.poisoned
    && Replay(codec, initial, AllStored(crc, rs)) == Done(st.durable)
  }

  /** All of the log is on stable storage. */
  predicate Settled(w: State) {
    w.synced == w.activeLen
  }

  /** No empty file lies past the active segment. */
  predicate NoSpare(w: State) {
    |w.segments| == w.active + 1
  }

  lemma ReplayNext(codec: Codec, initial: Persistent, records: seq<W.StoredRecord>, lsn: W.Lsn, d: Persistent,
                   c: Persistent)
    requires Faithful(codec) && Replay(codec, initial, records) == Done(d) && Store.Advances(d, c)
    ensures Replay(codec, initial, records + [W.StoredRecord(lsn, RecordFor(codec, d, c))]) == Done(c)
  {
    hide ApplyDelta, DeltaFor, Store.Advances;
    var more := records + [W.StoredRecord(lsn, RecordFor(codec, d, c))];
    assert more[..|more| - 1] == records;
    assert codec.decode(codec.encode(DeltaFor(d, c))) == Some(DeltaFor(d, c));
    ReplayExact(d, c);
  }

  /** What replays, replays from every prefix. */
  lemma {:induction false} ReplayPrefix(codec: Codec, initial: Persistent, part: seq<W.StoredRecord>,
                                        records: seq<W.StoredRecord>)
    requires part <= records && Replay(codec, initial, records).Done?
    ensures Replay(codec, initial, part).Done?
  {
    if |part| < |records| {
      assert part <= records[..|records| - 1];
      ReplayPrefix(codec, initial, part, records[..|records| - 1]);
    } else {
      assert part == records;
    }
  }

  // ----- Crashing during a save -----

  /** What a crash at any point of a save may leave. */
  ghost predicate CrashDuring(crc: W.Checksum, codec: Codec, st: RaftStore, current: Persistent, f: SaveFaults,
                              image: seq<Bytes>, stable: nat)
    requires Wellformed(st.wal)
  {
    || Crash(st.wal, image, stable)
    || Crash(Append(crc, st.wal, RecordFor(codec, st.durable, current), f.append).0, image, stable)
    || Crash(Save(crc, codec, st, current, f).0.wal, image, stable)
  }

  /** The crash came after the save had returned. */
  ghost predicate CrashAfter(crc: W.Checksum, codec: Codec, st: RaftStore, current: Persistent, f: SaveFaults,
                             image: seq<Bytes>, stable: nat)
    requires Wellformed(st.wal)
  {
    var (st', r) := Save(crc, codec, st, current, f);
    r.Done? && Crash(st'.wal, image, stable)
  }

  /** The log holds what it held before the save, or that and the new delta. */
  ghost predicate BeforeOrAfter(crc: W.Checksum, base: seq<W.StoredRecord>, record: W.Record, rs: seq<seq<W.Record>>)
    requires AllEncodable(rs)
  {
    AllStored(crc, rs) == base || AndOne(crc, base, record, rs)
  }

  ghost predicate AndOne(crc: W.Checksum, base: seq<W.StoredRecord>, record: W.Record, rs: seq<seq<W.Record>>)
    requires AllEncodable(rs)
  {
    exists lsn :: AllStored(crc, rs) == base + [W.StoredRecord(lsn, record)]
  }

  /** A crash has left some of what the log held before the save, or all of that and the
      new delta. */
  ghost predicate Left(crc: W.Checksum, base: seq<W.StoredRecord>, record: W.Record, rs: seq<seq<W.Record>>)
    requires AllEncodable(rs)
  {
    AllStored(crc, rs) <= base || AndOne(crc, base, record, rs)
  }

  /** The reopened store is sound, nothing stable is gone, and its log is what was left. */
  ghost predicate Kept(crc: W.Checksum, codec: Codec, initial: Persistent, st: RaftStore, rs: seq<seq<W.Record>>,
                       record: W.Record, again: RaftStore, rs': seq<seq<W.Record>>) {
    && Holds(crc, st.wal, rs) && StoreOk(crc, codec, initial, again, rs')
    && AllStored(crc, Safe(crc, st.wal, rs)) <= AllStored(crc, Safe(crc, again.wal, rs'))
    && Left(crc, AllStored(crc, rs), record, rs')
  }

  lemma LeftOver(crc: W.Checksum, base: seq<W.StoredRecord>, record: W.Record, rs: seq<seq<W.Record>>,
                 left: seq<seq<W.Record>>)
    requires AllEncodable(rs) && AllEncodable(left)
    requires BeforeOrAfter(crc, base, record, rs) && AllStored(crc, left) <= AllStored(crc, rs)
    ensures Left(crc, base, record, left)
  {
    hide AllStored;
    var all, some := AllStored(crc, rs), AllStored(crc, left);
    if |some| == |all| {
      assert some == all;
    } else {
      assert all[..|some|] == some;
      assert AndOne(crc, base, record, rs) ==> all[..|some|] == base[..|some|];
    }
  }

  /** What the log holds after the append of a save, whatever failed. */
  lemma AppendedLog(crc: W.Checksum, w: State, rs: seq<seq<W.Record>>, record: W.Record, f: Faults)
      returns (rs': seq<seq<W.Record>>)
    requires Holds(crc, w, rs) && !w.poisoned
    ensures Wellformed(w) && AllEncodable(rs) && AllEncodable(rs')
    ensures var (w', r) := Append(crc, w, record, f);
            && Holds(crc, w', rs') && w'.options == w.options
            && BeforeOrAfter(crc, AllStored(crc, rs), record, rs')
            && AllStored(crc, Safe(crc, w, rs)) <= AllStored(crc, Safe(crc, w', rs'))
            && (r.Ok? ==> !w'.poisoned && AllStored(crc, rs') == AllStored(crc, rs) + [W.StoredRecord(r.value, record)])
            && (r.Err? && !w'.poisoned ==> AllStored(crc, rs') == AllStored(crc, rs))
            && (r.Err? && !w'.poisoned && Settled(w) ==> Settled(w'))
            && (NoSpare(w) ==> NoSpare(w') || (r.Err? && Settled(w') && !w'.poisoned))
  {
    HealthyExact(crc, w, rs);
    HealthyLen(crc, w, rs);
    hide Holds, AllStored, Safe, Append;
    HoldsSized(crc, w, rs);
    HoldsLast(crc, w, rs);
    SafeWithin(crc, w, rs);
    rs' := AppendKeeps(crc, w, rs, record, f);
    AppendShape(crc, w, record, f);
  }

  lemma AppendShape(crc: W.Checksum, w: State, record: W.Record, f: Faults)
    requires Wellformed(w) && !w.poisoned && w.activeLen == |w.segments[w.active]|
    ensures var (w', r) := Append(crc, w, record, f);
            && w'.options == w.options
            && (r.Ok? ==> !w'.poisoned)
            && (r.Err? && !w'.poisoned && Settled(w) ==> Settled(w'))
            && (NoSpare(w) ==> NoSpare(w') || (r.Err? && Settled(w') && !w'.poisoned))
  {
    hide W.Encoded;
  }

  /** What the log holds after a whole save. */
  lemma SavedLog(crc: W.Checksum, codec: Codec, initial: Persistent, st: RaftStore, rs: seq<seq<W.Record>>,
                 current: Persistent, f: SaveFaults)
    returns (rs': seq<seq<W.Record>>)
    requires StoreOk(crc, codec, initial, st, rs) && Store.Advances(st.durable, current)
    ensures Wellformed(st.wal) && AllEncodable(rs) && AllEncodable(rs')
    ensures var (st', r) := Save(crc, codec, st, current, f);
            && Holds(crc, st'.wal, rs') && st'.wal.options == st.wal.options
            && BeforeOrAfter(crc, AllStored(crc, rs), RecordFor(codec, st.durable, current), rs')
            && AllStored(crc, Safe(crc, st.wal, rs)) <= AllStored(crc, Safe(crc, st'.wal, rs'))
            && (!st'.wal.poisoned ==> StoreOk(crc, codec, initial, st', rs'))
            && (r.Done? ==> && st'.durable == current && !st'.wal.poisoned && Settled(st'.wal)
                            && AndOne(crc, AllStored(crc, rs), RecordFor(codec, st.durable, current), rs'))
            && (r.Failed? ==> st'.durable == st.durable)
            && (r.Failed? && !st'.wal.poisoned ==> AllStored(crc, rs') == AllStored(crc, rs))
            && (Settled(st.wal) && !st'.wal.poisoned ==> Settled(st'.wal))
            && (r.Done? && NoSpare(st.wal) ==> NoSpare(st'.wal))
            && (NoSpare(st.wal) ==> NoSpare(st'.wal) || (Settled(st'.wal) && !st'.wal.poisoned))
  {
    hide Holds, AllStored, Safe, Append, Replay, Store.Advances, DeltaFor;
    var record := RecordFor(codec, st.durable, current);
    HoldsSized(crc, st.wal, rs);
    HoldsLast(crc, st.wal, rs);
    rs' := rs;
    SameSnapshots(st.durable, current);
    rs' := AppendedLog(crc, st.wal, rs, record, f.append);
    var (appended, r) := Append(crc, st.wal, record, f.append);
    if r.Ok? {
      SyncKeeps(crc, appended, rs', f.sync);
      SyncSafe(crc, appended, rs', f.sync);
      ReplayNext(codec, initial, AllStored(crc, rs), r.value, st.durable, current);
      HealthyLen(crc, appended, rs');
    }
  }

  lemma SameSnapshots(d: Persistent, c: Persistent)
    requires Store.Advances(d, c)
    ensures d.log.snapshotIndex == c.log.snapshotIndex
  {
  }

  lemma HealthyLen(crc: W.Checksum, w: State, rs: seq<seq<W.Record>>)
    requires Holds(crc, w, rs) && !w.poisoned
    ensures |w.segments[w.active]| == w.activeLen
  {
  }

  // ----- Reopening -----

  /** Reopening a log that replays gives a store whose records are a prefix of the log's, at
      least those on stable storage. It is only refused when an empty segment had been left
      behind and the crash cut a record. */
  lemma Reopened(crc: W.Checksum, codec: Codec, initial: Persistent, w: State, rs: seq<seq<W.Record>>,
                 image: seq<Bytes>, stable: nat) returns (groups: seq<seq<W.Record>>)
    requires Faithful(codec) && Holds(crc, w, rs) && Crash(w, image, stable) && AllEncodable(rs)
    requires Replay(codec, initial, AllStored(crc, rs)).Done?
    ensures AllEncodable(groups)
    ensures var again := OpenStore(crc, codec, image, w.options, stable, initial);
            && (again.Done? ==>
                  && StoreOk(crc, codec, initial, again.value, groups)
                  && AllStored(crc, Safe(crc, w, rs)) <= AllStored(crc, Safe(crc, again.value.wal, groups))
                  && AllStored(crc, groups) <= AllStored(crc, rs)
                  && (Settled(w) ==> AllStored(crc, groups) == AllStored(crc, rs)))
            && (|image| == w.active + 1 || (Settled(w) && !w.poisoned) ==> again.Done?)
  {
    hide Holds, AllStored, Safe, Replay, StreamAll;
    groups := Groups(crc, w, rs, image);
    var kept := Surviving(crc, w, rs, image);
    ReopenExact(crc, w, rs, image);
    SurvivorsPrefix(crc, w, rs, image);
    SyncedImage(crc, w, rs, image);
    if |image| == w.active + 1 || Frames(crc, kept[w.active]) == image[w.active] {
      ReopenedHolds(crc, w, rs, image, stable);
      ReplayPrefix(codec, initial, AllStored(crc, kept), AllStored(crc, rs));
      SafeReopened(crc, w, rs, image, stable);
    }
  }

  lemma SafeReopened(crc: W.Checksum, w: State, rs: seq<seq<W.Record>>, image: seq<Bytes>, stable: nat)
    requires Holds(crc, w, rs) && Crash(w, image, stable) && Open(crc, image, w.options, stable).Ok?
    requires Holds(crc, Open(crc, image, w.options, stable).value, Groups(crc, w, rs, image))
    ensures AllStored(crc, Safe(crc, w, rs))
         <= AllStored(crc, Safe(crc, Open(crc, image, w.options, stable).value, Groups(crc, w, rs, image)))
  {
    hide Holds, AllStored, Safe, Open, Surviving;
    var _ := CrashSafe(crc, w, rs, image, stable, Open(crc, image, w.options, stable).value);
  }

  /** A fully synced, healthy log comes back byte for byte. */
  lemma SyncedImage(crc: W.Checksum, w: State, rs: seq<seq<W.Record>>, image: seq<Bytes>)
    requires Holds(crc, w, rs) && CrashImage(w, image)
    ensures Settled(w) && !w.poisoned ==>
        Frames(crc, Surviving(crc, w, rs, image)[w.active]) == image[w.active]
  {
    if Settled(w) && !w.poisoned {
      HealthyExact(crc, w, rs);
      HealthyLen(crc, w, rs);
      SurvivorsPrefix(crc, w, rs, image);
      hide Holds, AllStored, Surviving;
      assert image[w.active] == w.segments[w.active];
    }
  }

  lemma ImageLen(w: State, image: seq<Bytes>)
    requires Wellformed(w)
    ensures CrashImage(w, image) && NoSpare(w) ==> |image| == w.active + 1
  {
  }

  /** After a crash at any byte of a save, whatever calls failed in it, the reopened store has
      some state between the stable one and the one being saved: exactly the old state or the
      new one if the store was settled, and the new one if the save had returned. It does
      reopen, unless an earlier failed rotation had left an empty segment. */
  lemma SaveDurable(crc: W.Checksum, codec: Codec, initial: Persistent, st: RaftStore, rs: seq<seq<W.Record>>,
                    current: Persistent, f: SaveFaults, image: seq<Bytes>, stable: nat)
    returns (rs': seq<seq<W.Record>>)
    requires Wellformed(st.wal) && StoreOk(crc, codec, initial, st, rs) && Store.Advances(st.durable, current)
    requires CrashDuring(crc, codec, st, current, f, image, stable)
    ensures var again := OpenStore(crc, codec, image, st.wal.options, stable, initial);
            && (NoSpare(st.wal) ==> again.Done?)
            && (again.Done? ==>
                  && Kept(crc, codec, initial, st, rs, RecordFor(codec, st.durable, current), again.value, rs')
                  && (Settled(st.wal) ==> again.value.durable in {st.durable, current})
                  && (CrashAfter(crc, codec, st, current, f, image, stable) ==> again.value.durable == current))
  {
    hide Holds, AllStored, Safe, Append, Replay, StreamAll, Store.Advances, DeltaFor, OpenStore, Crash, Save, Left,
        BeforeOrAfter, NoSpare, Settled, Kept;
    HoldsLast(crc, st.wal, rs);
    var record := RecordFor(codec, st.durable, current);
    var (st', r) := Save(crc, codec, st, current, f);
    var saved := SavedLog(crc, codec, initial, st, rs, current, f);
    HoldsSized(crc, st'.wal, saved);
    if Crash(st'.wal, image, stable) {
      rs' := CrashAt(crc, codec, initial, st, rs, current, st'.wal, saved, image, stable);
    } else if Crash(Append(crc, st.wal, record, f.append).0, image, stable) {
      var put := AppendedLog(crc, st.wal, rs, record, f.append);
      rs' := CrashAt(crc, codec, initial, st, rs, current, Append(crc, st.wal, record, f.append).0, put, image, stable);
    } else {
      SameLog(crc, record, rs);
      rs' := CrashAt(crc, codec, initial, st, rs, current, st.wal, rs, image, stable);
    }
    if OpenStore(crc, codec, image, st.wal.options, stable, initial).Done? {
      LeftDurable(crc, codec, initial, st, rs, current,
                  OpenStore(crc, codec, image, st.wal.options, stable, initial).value, rs');
    }
  }

  lemma SameLog(crc: W.Checksum, record: W.Record, rs: seq<seq<W.Record>>)
    requires AllEncodable(rs)
    ensures BeforeOrAfter(crc, AllStored(crc, rs), record, rs)
  {
  }

  /** A crash at a point of a save at which the log is `w`. */
  lemma CrashAt(crc: W.Checksum, codec: Codec, initial: Persistent, st: RaftStore, rs: seq<seq<W.Record>>,
                current: Persistent, w: State, now: seq<seq<W.Record>>, image: seq<Bytes>, stable: nat)
    returns (rs': seq<seq<W.Record>>)
    requires StoreOk(crc, codec, initial, st, rs) && Store.Advances(st.durable, current) && w.options == st.wal.options
    requires Holds(crc, w, now) && Crash(w, image, stable) && AllEncodable(rs) && AllEncodable(now)
    requires BeforeOrAfter(crc, AllStored(crc, rs), RecordFor(codec, st.durable, current), now)
    requires AllStored(crc, Safe(crc, st.wal, rs)) <= AllStored(crc, Safe(crc, w, now))
    requires NoSpare(st.wal) ==> NoSpare(w) || (Settled(w) && !w.poisoned)
    ensures AllEncodable(rs')
    ensures var again := OpenStore(crc, codec, image, st.wal.options, stable, initial);
            && (NoSpare(st.wal) ==> again.Done?)
            && (again.Done? ==>
                  && Kept(crc, codec, initial, st, rs, RecordFor(codec, st.durable, current), again.value, rs')
                  && (Settled(w) ==> AllStored(crc, rs') == AllStored(crc, now)))
  {
    hide Holds, AllStored, Safe, Replay, Store.Advances, DeltaFor, OpenStore, Left, BeforeOrAfter, AndOne, NoSpare,
        Settled, CrashImage;
    var record := RecordFor(codec, st.durable, current);
    HoldsSized(crc, w, now);
    NowReplays(crc, codec, initial, st, rs, current, now);
    rs' := Reopened(crc, codec, initial, w, now, image, stable);
    ImageLen(w, image);
    if OpenStore(crc, codec, image, st.wal.options, stable, initial).Done? {
      LeftOver(crc, AllStored(crc, rs), record, now, rs');
    }
  }

  lemma NowReplays(crc: W.Checksum, codec: Codec, initial: Persistent, st: RaftStore, rs: seq<seq<W.Record>>,
                   current: Persistent, now: seq<seq<W.Record>>)
    requires StoreOk(crc, codec, initial, st, rs) && Store.Advances(st.durable, current)
    requires AllEncodable(rs) && AllEncodable(now)
    requires BeforeOrAfter(crc, AllStored(crc, rs), RecordFor(codec, st.durable, current), now)
    ensures Replay(codec, initial, AllStored(crc, now)).Done?
    ensures AndOne(crc, AllStored(crc, rs), RecordFor(codec, st.durable, current), now) ==>
              Replay(codec, initial, AllStored(crc, now)) == Done(current)
  {
    hide Holds, AllStored, Replay, Store.Advances, DeltaFor;
    var base, record := AllStored(crc, rs), RecordFor(codec, st.durable, current);
    if AndOne(crc, base, record, now) {
      var lsn :| AllStored(crc, now) == base + [W.StoredRecord(lsn, record)];
      ReplayNext(codec, initial, base, lsn, st.durable, current);
    }
  }

  /** If nothing the store had could be lost, what is left is the old state or the new one. */
  lemma LeftDurable(crc: W.Checksum, codec: Codec, initial: Persistent, st: RaftStore, rs: seq<seq<W.Record>>,
                    current: Persistent, again: RaftStore, rs': seq<seq<W.Record>>)
    requires StoreOk(crc, codec, initial, st, rs) && Store.Advances(st.durable, current)
    requires Kept(crc, codec, initial, st, rs, RecordFor(codec, st.durable, current), again, rs')
    ensures AllEncodable(rs) && AllEncodable(rs')
    ensures Settled(st.wal) ==> again.durable in {st.durable, current}
    ensures AndOne(crc, AllStored(crc, rs), RecordFor(codec, st.durable, current), rs') ==> again.durable == current
  {
    hide Holds, AllStored, Replay, Store.Advances, DeltaFor, Safe, AndOne;
    HoldsLast(crc, st.wal, rs);
    HoldsLast(crc, again.wal, rs');
    var base, record := AllStored(crc, rs), RecordFor(codec, st.durable, current);
    SafeWithin(crc, st.wal, rs);
    SafeWithin(crc, again.wal, rs');
    if AndOne(crc, base, record, rs') {
      NowReplays(crc, codec, initial, st, rs, current, rs');
    } else if Settled(st.wal) {
      assert AllStored(crc, rs') == base;
    }
  }

  /** A crash between saves keeps at least what is on stable storage: everything, and the
      store reopens, if it was settled. */
  lemma Restarted(crc: W.Checksum, codec: Codec, initial: Persistent, st: RaftStore, rs: seq<seq<W.Record>>,
                  image: seq<Bytes>, stable: nat) returns (rs': seq<seq<W.Record>>)
    requires Wellformed(st.wal) && StoreOk(crc, codec, initial, st, rs) && Crash(st.wal, image, stable)
    ensures AllEncodable(rs) && AllEncodable(rs')
    ensures var again := OpenStore(crc, codec, image, st.wal.options, stable, initial);
            && (again.Done? ==>
                  && StoreOk(crc, codec, initial, again.value, rs') && NoSpare(again.value.wal)
                  && AllStored(crc, Safe(crc, st.wal, rs)) <= AllStored(crc, Safe(crc, again.value.wal, rs'))
                  && AllStored(crc, rs') <= AllStored(crc, rs))
            && (Settled(st.wal) ==> again.Done? && again.value.durable == st.durable)
            && (NoSpare(st.wal) ==> again.Done?)
  {
    hide Holds, AllStored, Replay, OpenStore, Safe;
    HoldsLast(crc, st.wal, rs);
    rs' := Reopened(crc, codec, initial, st.wal, rs, image, stable);
    ImageLen(st.wal, image);
    OpenedAtEnd(crc, codec, image, st.wal.options, stable, initial);
  }

  // ----- A store's whole life -----

  /** A save that returns, a crash at any point of a save, or a crash between saves; after a
      crash the store is reopened. */
  datatype StoreOp =
    | SaveOp(current: Persistent, faults: SaveFaults)
    | CrashOp(current: Persistent, faults: SaveFaults, image: seq<Bytes>, stable: nat)
    | RestartOp(image: seq<Bytes>, stable: nat)

  ghost predicate StoreNext(crc: W.Checksum, codec: Codec, initial: Persistent, st: RaftStore, op: StoreOp,
                            st': RaftStore) {
    Wellformed(st.wal) &&
    match op
    case SaveOp(current, faults) => st' == Save(crc, codec, st, current, faults).0 && !st'.wal.poisoned
    case CrashOp(current, faults, image, stable) =>
      && CrashDuring(crc, codec, st, current, faults, image, stable)
      && OpenStore(crc, codec, image, st.wal.options, stable, initial) == Done(st')
    case RestartOp(image, stable) =>
      && Crash(st.wal, image, stable)
      && OpenStore(crc, codec, image, st.wal.options, stable, initial) == Done(st')
  }

  /** From its creation in an empty directory; a poisoned handle can only be reopened. */
  ghost predicate IsStoreLife(crc: W.Checksum, codec: Codec, initial: Persistent, sts: seq<RaftStore>,
                              ops: seq<StoreOp>) {
    && |sts| == |ops| + 1
    && Sized(sts[0].wal.options) && OpenStore(crc, codec, [], sts[0].wal.options, 0, initial) == Done(sts[0])
    && forall k :: 0 <= k < |ops| ==> StoreNext(crc, codec, initial, sts[k], ops[k], sts[k + 1])
  }

  /** Up to step `k`, each state handed to a save follows the one in store. */
  ghost predicate Follows(sts: seq<RaftStore>, ops: seq<StoreOp>, k: nat)
    requires k <= |ops| <= |sts|
  {
    forall j :: 0 <= j < k && !ops[j].RestartOp? ==> Store.Advances(sts[j].durable, ops[j].current)
  }

  /** The save returned. */
  ghost predicate Acknowledged(crc: W.Checksum, codec: Codec, st: RaftStore, op: StoreOp) {
    op.SaveOp? && Wellformed(st.wal) && Save(crc, codec, st, op.current, op.faults).1.Done?
  }

  /** At step `k`, `p` is the last state acknowledged, or one that was being saved at a crash
      since and survived it: that of operation `m`, or the first of all. */
  ghost predicate LastSaved(crc: W.Checksum, codec: Codec, initial: Persistent, sts: seq<RaftStore>, ops: seq<StoreOp>,
                            k: nat, m: int, p: Persistent)
    requires k <= |ops| < |sts|
  {
    && -1 <= m < k
    && (m == -1 ==> p == initial)
    && (m >= 0 ==> && (Acknowledged(crc, codec, sts[m], ops[m]) || ops[m].CrashOp?)
                   && p == ops[m].current == sts[m + 1].durable)
    && (forall j :: m < j < k ==> !Acknowledged(crc, codec, sts[j], ops[j]))
  }

  /** The records replay to such a state. */
  ghost predicate Backed(crc: W.Checksum, codec: Codec, initial: Persistent, sts: seq<RaftStore>, ops: seq<StoreOp>,
                         k: nat, records: seq<W.StoredRecord>)
    requires k <= |ops| < |sts|
  {
    var r := Replay(codec, initial, records);
    r.Done? && exists m :: LastSaved(crc, codec, initial, sts, ops, k, m, r.value)
  }

  /** Every part of the log that a crash may leave does. */
  ghost predicate AllBacked(crc: W.Checksum, codec: Codec, initial: Persistent, sts: seq<RaftStore>,
                            ops: seq<StoreOp>, k: nat, safe: seq<W.StoredRecord>, all: seq<W.StoredRecord>)
    requires k <= |ops| < |sts|
  {
    forall part :: safe <= part <= all ==> Backed(crc, codec, initial, sts, ops, k, part)
  }

  lemma StoreBirth(crc: W.Checksum, codec: Codec, initial: Persistent, st: RaftStore)
    requires Faithful(codec) && Sized(st.wal.options)
    requires OpenStore(crc, codec, [], st.wal.options, 0, initial) == Done(st)
    ensures StoreOk(crc, codec, initial, st, [[]]) && st.durable == initial && AllStored(crc, [[]]) == []
  {
    BirthHolds(crc, st.wal);
    EmptyStream(crc, st.wal.options.segmentSize);
    NoneStored(crc);
    var none: seq<seq<W.Record>> := [[]];
    assert none[..0] == [];
    assert AllStored(crc, none) == [];
    assert Replay(codec, initial, []) == Done(initial);
  }

  lemma EmptyStream(crc: W.Checksum, segmentSize: nat)
    ensures StreamAll(crc, [[]], 0, segmentSize) == ([], None)
  {
    var segments: seq<Bytes> := [[]];
    EndRead(crc, segments[0], 0, segmentSize);
    assert Stream(crc, segments[0], 0, 0, segmentSize) == ([], None);
    assert StreamAll(crc, segments, 1, segmentSize) == ([], None);
    var none: seq<W.StoredRecord> := [];
    assert none + none == none;
  }

  /** What one operation makes of the store's log. */
  lemma StoreStep(crc: W.Checksum, codec: Codec, initial: Persistent, st: RaftStore, rs: seq<seq<W.Record>>,
                  op: StoreOp, st': RaftStore) returns (rs': seq<seq<W.Record>>)
    requires StoreOk(crc, codec, initial, st, rs) && StoreNext(crc, codec, initial, st, op, st')
    requires op.RestartOp? || Store.Advances(st.durable, op.current)
    ensures StoreOk(crc, codec, initial, st', rs') && AllEncodable(rs) && AllEncodable(rs')
    ensures AllStored(crc, Safe(crc, st.wal, rs)) <= AllStored(crc, Safe(crc, st'.wal, rs'))
    ensures AllStored(crc, rs') <= AllStored(crc, rs)
            || (!op.RestartOp? && AndOne(crc, AllStored(crc, rs), RecordFor(codec, st.durable, op.current), rs')
                && (op.CrashOp? || Acknowledged(crc, codec, st, op)) && st'.durable == op.current)
    ensures Acknowledged(crc, codec, st, op) ==> op.SaveOp? && st'.durable == op.current && Settled(st'.wal)
    ensures op.SaveOp? || Settled(st.wal) ==>
              st'.durable == st.durable || (!op.RestartOp? && st'.durable == op.current)
    ensures op.SaveOp? && Settled(st.wal) ==> Settled(st'.wal)
    ensures (op.SaveOp? ==> Acknowledged(crc, codec, st, op)) && NoSpare(st.wal) ==> NoSpare(st'.wal)
  {
    hide Save, OpenStore, CrashDuring, Store.Advances, NoSpare, Crash, Settled, Holds, AllStored, Safe, Replay,
        AndOne;
    HoldsLast(crc, st.wal, rs);
    match op
    case SaveOp(current, faults) => rs' := SavedLog(crc, codec, initial, st, rs, current, faults);
    case CrashOp(current, faults, image, stable) =>
      rs' := SaveDurable(crc, codec, initial, st, rs, current, faults, image, stable);
      LeftDurable(crc, codec, initial, st, rs, current, st', rs');
      OpenedAtEnd(crc, codec, image, st.wal.options, stable, initial);
    case RestartOp(image, stable) => rs' := Restarted(crc, codec, initial, st, rs, image, stable);
  }

  /** A store that has just been opened writes to its last file, and is settled if all of it
      is on stable storage. */
  lemma OpenedAtEnd(crc: W.Checksum, codec: Codec, listed: seq<Bytes>, options: WalLog.Options, stable: nat,
                    initial: Persistent)
    ensures var again := OpenStore(crc, codec, listed, options, stable, initial);
            again.Done? ==>
              && NoSpare(again.value.wal)
              && (listed == [] || stable >= |listed[|listed| - 1]| ==> Settled(again.value.wal))
  {
    hide Replay, StreamAll, Recover, SumLen;
  }

  /** At every moment of every life, whatever failed and wherever it crashed, the log replays
      to the durable copy. That, and whatever else a crash may leave, is the last state whose
      save returned or one that was being saved when the store crashed since. */
  lemma {:induction false} StoreLife(crc: W.Checksum, codec: Codec, initial: Persistent, sts: seq<RaftStore>,
                                     ops: seq<StoreOp>, k: nat) returns (rs: seq<seq<W.Record>>, m: int)
    requires Faithful(codec) && IsStoreLife(crc, codec, initial, sts, ops) && k < |sts| && Follows(sts, ops, k)
    ensures StoreOk(crc, codec, initial, sts[k], rs) && AllEncodable(rs)
    ensures LastSaved(crc, codec, initial, sts, ops, k, m, sts[k].durable)
    ensures AllBacked(crc, codec, initial, sts, ops, k, AllStored(crc, Safe(crc, sts[k].wal, rs)), AllStored(crc, rs))
    ensures k > 0 && Acknowledged(crc, codec, sts[k - 1], ops[k - 1]) ==> Settled(sts[k].wal)
  {
    hide StoreNext, Store.Advances, OpenStore, Acknowledged, AllBacked, Holds, AllStored, Safe, Replay, Settled, AndOne,
        LastSaved;
    if k == 0 {
      StoreBirth(crc, codec, initial, sts[0]);
      rs, m := [[]], -1;
      BirthBacked(crc, codec, initial, sts, ops);
    } else {
      var before, m0 := StoreLife(crc, codec, initial, sts, ops, k - 1);
      assert StoreNext(crc, codec, initial, sts[k - 1], ops[k - 1], sts[k - 1 + 1]);
      rs := StoreStep(crc, codec, initial, sts[k - 1], before, ops[k - 1], sts[k]);
      StepBacked(crc, codec, initial, sts, ops, k, before, rs);
    }
    m := DurableBacked(crc, codec, initial, sts, ops, k, rs);
  }

  lemma BirthBacked(crc: W.Checksum, codec: Codec, initial: Persistent, sts: seq<RaftStore>, ops: seq<StoreOp>)
    requires 0 < |sts| == |ops| + 1 && StoreOk(crc, codec, initial, sts[0], [[]]) && sts[0].durable == initial
    requires AllEncodable([[]]) && AllStored(crc, [[]]) == []
    ensures AllBacked(crc, codec, initial, sts, ops, 0, AllStored(crc, Safe(crc, sts[0].wal, [[]])),
                      AllStored(crc, [[]]))
  {
    hide Store.Advances, OpenStore, Acknowledged, Holds, AllStored, Safe;
    assert LastSaved(crc, codec, initial, sts, ops, 0, -1, initial);
    assert Backed(crc, codec, initial, sts, ops, 0, []);
  }

  /** The durable copy is the state of all the records. */
  lemma DurableBacked(crc: W.Checksum, codec: Codec, initial: Persistent, sts: seq<RaftStore>, ops: seq<StoreOp>,
                      k: nat, rs: seq<seq<W.Record>>) returns (m: int)
    requires k <= |ops| < |sts| && StoreOk(crc, codec, initial, sts[k], rs) && AllEncodable(rs)
    requires AllBacked(crc, codec, initial, sts, ops, k, AllStored(crc, Safe(crc, sts[k].wal, rs)), AllStored(crc, rs))
    ensures LastSaved(crc, codec, initial, sts, ops, k, m, sts[k].durable)
  {
    hide Holds, AllStored, Safe, Replay, LastSaved;
    SafeWithin(crc, sts[k].wal, rs);
    assert Backed(crc, codec, initial, sts, ops, k, AllStored(crc, rs));
    m :| LastSaved(crc, codec, initial, sts, ops, k, m, sts[k].durable);
  }

  /** A step keeps what a crash may leave accounted for. */
  lemma StepBacked(crc: W.Checksum, codec: Codec, initial: Persistent, sts: seq<RaftStore>, ops: seq<StoreOp>, k: nat,
                   before: seq<seq<W.Record>>, rs: seq<seq<W.Record>>)
    requires 0 < k <= |ops| < |sts| && AllEncodable(before) && AllEncodable(rs)
    requires StoreOk(crc, codec, initial, sts[k - 1], before) && StoreOk(crc, codec, initial, sts[k], rs)
    requires AllBacked(crc, codec, initial, sts, ops, k - 1, AllStored(crc, Safe(crc, sts[k - 1].wal, before)),
                       AllStored(crc, before))
    requires AllStored(crc, Safe(crc, sts[k - 1].wal, before)) <= AllStored(crc, Safe(crc, sts[k].wal, rs))
    requires var op := ops[k - 1];
             AllStored(crc, rs) <= AllStored(crc, before)
             || (!op.RestartOp?
                 && AndOne(crc, AllStored(crc, before), RecordFor(codec, sts[k - 1].durable, op.current), rs)
                 && (op.CrashOp? || Acknowledged(crc, codec, sts[k - 1], op)) && sts[k].durable == op.current)
    requires Acknowledged(crc, codec, sts[k - 1], ops[k - 1]) ==>
               ops[k - 1].SaveOp? && sts[k].durable == ops[k - 1].current && Settled(sts[k].wal)
    ensures AllBacked(crc, codec, initial, sts, ops, k, AllStored(crc, Safe(crc, sts[k].wal, rs)), AllStored(crc, rs))
  {
    hide Holds, AllStored, Safe, Replay, LastSaved, Acknowledged, DeltaFor, Backed;
    SafeWithin(crc, sts[k].wal, rs);
    var safe, all := AllStored(crc, Safe(crc, sts[k].wal, rs)), AllStored(crc, rs);
    forall part | safe <= part <= all ensures Backed(crc, codec, initial, sts, ops, k, part) {
      if Acknowledged(crc, codec, sts[k - 1], ops[k - 1]) || !(part <= AllStored(crc, before)) {
        assert part == all;
        NowBacked(crc, codec, initial, sts, ops, k, all);
      } else {
        StillBacked(crc, codec, initial, sts, ops, k, part);
      }
    }
  }

  lemma NowBacked(crc: W.Checksum, codec: Codec, initial: Persistent, sts: seq<RaftStore>, ops: seq<StoreOp>, k: nat,
                  all: seq<W.StoredRecord>)
    requires 0 < k <= |ops| < |sts| && Replay(codec, initial, all) == Done(sts[k].durable)
    requires Acknowledged(crc, codec, sts[k - 1], ops[k - 1]) || ops[k - 1].CrashOp?
    requires !ops[k - 1].RestartOp? && sts[k].durable == ops[k - 1].current
    ensures Backed(crc, codec, initial, sts, ops, k, all)
  {
    hide Acknowledged, Replay;
    assert LastSaved(crc, codec, initial, sts, ops, k, k - 1, sts[k].durable);
  }

  lemma StillBacked(crc: W.Checksum, codec: Codec, initial: Persistent, sts: seq<RaftStore>, ops: seq<StoreOp>, k: nat,
                    part: seq<W.StoredRecord>)
    requires 0 < k <= |ops| < |sts| && !Acknowledged(crc, codec, sts[k - 1], ops[k - 1])
    requires Backed(crc, codec, initial, sts, ops, k - 1, part)
    ensures Backed(crc, codec, initial, sts, ops, k, part)
  {
    hide Acknowledged, Replay;
    var p := Replay(codec, initial, part).value;
    var m :| LastSaved(crc, codec, initial, sts, ops, k - 1, m, p);
    assert LastSaved(crc, codec, initial, sts, ops, k, m, p);
  }

  /** Nothing follows a save that failed but a reopening, as the runtime has it. */
  ghost predicate StopsOnFailure(crc: W.Checksum, codec: Codec, sts: seq<RaftStore>, ops: seq<StoreOp>)
    requires |ops| < |sts|
  {
    forall j :: 0 <= j < |ops| && ops[j].SaveOp? ==> Acknowledged(crc, codec, sts[j], ops[j])
  }

  lemma {:induction false} NoSpareEver(crc: W.Checksum, codec: Codec, initial: Persistent, sts: seq<RaftStore>,
                                       ops: seq<StoreOp>, k: nat)
    requires Faithful(codec) && IsStoreLife(crc, codec, initial, sts, ops) && k < |sts| && Follows(sts, ops, k)
    requires StopsOnFailure(crc, codec, sts, ops)
    ensures NoSpare(sts[k].wal)
  {
    hide StoreOk, StoreNext, Store.Advances, OpenStore, Acknowledged, NoSpare, Settled, AllStored, Safe, AndOne,
        LastSaved, AllBacked;
    if k == 0 {
      OpenedAtEnd(crc, codec, [], sts[0].wal.options, 0, initial);
    } else {
      NoSpareEver(crc, codec, initial, sts, ops, k - 1);
      var rs, m := StoreLife(crc, codec, initial, sts, ops, k - 1);
      assert StoreNext(crc, codec, initial, sts[k - 1], ops[k - 1], sts[k - 1 + 1]);
      var _ := StoreStep(crc, codec, initial, sts[k - 1], rs, ops[k - 1], sts[k]);
    }
  }

  /** What any crash at a point of a save may leave, also one of a process that had written past
      a failed rotation. */
  ghost predicate AnyCrashDuring(crc: W.Checksum, codec: Codec, st: RaftStore, current: Persistent, f: SaveFaults,
                                 image: seq<Bytes>, stable: nat)
    requires Wellformed(st.wal)
  {
    || AnyCrash(st.wal, image, stable)
    || AnyCrash(Append(crc, st.wal, RecordFor(codec, st.durable, current), f.append).0, image, stable)
    || AnyCrash(Save(crc, codec, st, current, f).0.wal, image, stable)
  }

  lemma AnyIsCrash(crc: W.Checksum, w: State, rs: seq<seq<W.Record>>, image: seq<Bytes>, stable: nat)
    requires Holds(crc, w, rs) && (NoSpare(w) || (Settled(w) && !w.poisoned))
    ensures Wellformed(w) && (AnyCrash(w, image, stable) ==> Crash(w, image, stable))
  {
    if !w.poisoned {
      HealthyLen(crc, w, rs);
    }
  }

  /** A store that is reopened after every failure never writes past a failed rotation: every
      crash at any point of its saves is one of those considered here. */
  lemma NothingExcluded(crc: W.Checksum, codec: Codec, initial: Persistent, sts: seq<RaftStore>, ops: seq<StoreOp>,
                        k: nat, current: Persistent, f: SaveFaults, image: seq<Bytes>, stable: nat)
    requires Faithful(codec) && IsStoreLife(crc, codec, initial, sts, ops) && k < |sts| && Follows(sts, ops, k)
    requires StopsOnFailure(crc, codec, sts, ops) && Wellformed(sts[k].wal) && Store.Advances(sts[k].durable, current)
    ensures AnyCrashDuring(crc, codec, sts[k], current, f, image, stable) <==>
              CrashDuring(crc, codec, sts[k], current, f, image, stable)
  {
    hide StoreNext, Store.Advances, OpenStore, Follows, Settled, LastSaved, StopsOnFailure, Holds, AllStored, Safe,
        Replay, AllBacked, NoSpare, DeltaFor, AndOne, Append, Save, AnyCrash;
    NoSpareEver(crc, codec, initial, sts, ops, k);
    var rs, _ := StoreLife(crc, codec, initial, sts, ops, k);
    var record := RecordFor(codec, sts[k].durable, current);
    var put := AppendedLog(crc, sts[k].wal, rs, record, f.append);
    var saved := SavedLog(crc, codec, initial, sts[k], rs, current, f);
    AnyIsCrash(crc, sts[k].wal, rs, image, stable);
    AnyIsCrash(crc, Append(crc, sts[k].wal, record, f.append).0, put, image, stable);
    AnyIsCrash(crc, Save(crc, codec, sts[k], current, f).0.wal, saved, image, stable);
  }

  /** In the life of a store that is reopened after every failure, a crash at any byte of any
      further save leaves files that reopen: to the state being saved, for sure if that save
      had returned, or to the last one acknowledged, or to one that was being saved at a crash
      since. A settled store is reopened to its durable copy or to the state being saved. */
  lemma LifeReopens(crc: W.Checksum, codec: Codec, initial: Persistent, sts: seq<RaftStore>, ops: seq<StoreOp>, k: nat,
                    current: Persistent, f: SaveFaults, image: seq<Bytes>, stable: nat) returns (m: int)
    requires Faithful(codec) && IsStoreLife(crc, codec, initial, sts, ops) && k < |sts| && Follows(sts, ops, k)
    requires StopsOnFailure(crc, codec, sts, ops) && Wellformed(sts[k].wal) && Store.Advances(sts[k].durable, current)
    requires CrashDuring(crc, codec, sts[k], current, f, image, stable)
    ensures var again := OpenStore(crc, codec, image, sts[k].wal.options, stable, initial);
            && again.Done?
            && (|| again.value.durable == current
                || LastSaved(crc, codec, initial, sts, ops, k, m, again.value.durable))
            && (Settled(sts[k].wal) ==> again.value.durable in {sts[k].durable, current})
            && (CrashAfter(crc, codec, sts[k], current, f, image, stable) ==> again.value.durable == current)
  {
    hide StoreNext, Store.Advances, OpenStore, Acknowledged, CrashDuring, CrashAfter, Follows, Settled, LastSaved,
        StopsOnFailure, Holds, AllStored, Safe, Replay, AllBacked, NoSpare, DeltaFor, AndOne;
    NoSpareEver(crc, codec, initial, sts, ops, k);
    var rs, m0 := StoreLife(crc, codec, initial, sts, ops, k);
    var rs' := SaveDurable(crc, codec, initial, sts[k], rs, current, f, image, stable);
    var again := OpenStore(crc, codec, image, sts[k].wal.options, stable, initial).value;
    LeftDurable(crc, codec, initial, sts[k], rs, current, again, rs');
    m := m0;
    if again.durable != current {
      m := LeftBacked(crc, codec, initial, sts, ops, k, rs, again, rs');
    }
  }

  lemma LeftBacked(crc: W.Checksum, codec: Codec, initial: Persistent, sts: seq<RaftStore>, ops: seq<StoreOp>, k: nat,
                   rs: seq<seq<W.Record>>, again: RaftStore, rs': seq<seq<W.Record>>) returns (m: int)
    requires k <= |ops| < |sts| && StoreOk(crc, codec, initial, sts[k], rs) && AllEncodable(rs)
    requires AllBacked(crc, codec, initial, sts, ops, k, AllStored(crc, Safe(crc, sts[k].wal, rs)), AllStored(crc, rs))
    requires StoreOk(crc, codec, initial, again, rs') && AllEncodable(rs')
    requires AllStored(crc, Safe(crc, sts[k].wal, rs)) <= AllStored(crc, Safe(crc, again.wal, rs'))
    requires AllStored(crc, rs') <= AllStored(crc, rs)
    ensures LastSaved(crc, codec, initial, sts, ops, k, m, again.durable)
  {
    hide Holds, AllStored, Safe, Replay, LastSaved;
    SafeWithin(crc, again.wal, rs');
    assert Backed(crc, codec, initial, sts, ops, k, AllStored(crc, rs'));
    m :| LastSaved(crc, codec, initial, sts, ops, k, m, again.durable);
  }

  // ----- What is read back but not yet stable -----

  /** Every crash takes what is not on stable storage with it, as a power failure does. */
  ghost predicate PowerFailures(ops: seq<StoreOp>) {
    forall j :: 0 <= j < |ops| && !ops[j].SaveOp? ==>
      ops[j].image == [] || ops[j].stable >= |ops[j].image[|ops[j].image| - 1]|
  }

  /** If all crashes are power failures, the store is settled at every moment. */
  lemma {:induction false} SettledEver(crc: W.Checksum, codec: Codec, initial: Persistent, sts: seq<RaftStore>,
                                       ops: seq<StoreOp>, k: nat)
    requires Faithful(codec) && IsStoreLife(crc, codec, initial, sts, ops) && k < |sts| && Follows(sts, ops, k)
    requires PowerFailures(ops)
    ensures Settled(sts[k].wal)
  {
    hide StoreOk, Store.Advances, OpenStore, Acknowledged, NoSpare, Settled, AllStored, Safe, AndOne, LastSaved,
        AllBacked, CrashDuring, Crash, Save;
    if k == 0 {
      OpenedAtEnd(crc, codec, [], sts[0].wal.options, 0, initial);
    } else {
      SettledEver(crc, codec, initial, sts, ops, k - 1);
      var rs, m := StoreLife(crc, codec, initial, sts, ops, k - 1);
      var op := ops[k - 1];
      assert StoreNext(crc, codec, initial, sts[k - 1], op, sts[k - 1 + 1]);
      var _ := StoreStep(crc, codec, initial, sts[k - 1], rs, op, sts[k]);
      if !op.SaveOp? {
        OpenedAtEnd(crc, codec, op.image, sts[k - 1].wal.options, op.stable, initial);
      }
    }
  }

  /** The process dies between the append and the sync of its first save. Reopening reads the
      record back and does not sync it; a power failure then takes it away. */
  lemma ReadBackLost(crc: W.Checksum, codec: Codec, initial: Persistent, current: Persistent, options: WalLog.Options)
    returns (sts: seq<RaftStore>, ops: seq<StoreOp>)
    requires Faithful(codec) && Store.Advances(initial, current) && Sized(options) && !options.syncOnAppend
    requires var payload := RecordFor(codec, initial, current).payload;
             |payload| <= W.U32_MAX && W.HEADER_LEN + |payload| <= options.segmentSize
             && W.HEADER_LEN + |payload| <= options.maxSize
    ensures IsStoreLife(crc, codec, initial, sts, ops)
    ensures |ops| == 2 && Follows(sts, ops, 2) && StopsOnFailure(crc, codec, sts, ops)
    ensures ops[0].CrashOp? && ops[0].current == current && ops[1].RestartOp?
    ensures sts[0].durable == initial && sts[1].durable == current && sts[2].durable == initial
    ensures !Settled(sts[1].wal)
  {
    hide Store.Advances, OpenStore, W.Encoded, DeltaFor;
    var record := RecordFor(codec, initial, current);
    var encoded, f := W.Encoded(crc, record), SaveFaults(NO_FAULTS, false);
    var born := State(options, [[]], 0, 0, 0, 0, false);
    var put := State(options, [encoded], 0, |encoded|, |encoded|, 0, false);
    sts := [RaftStore(born, initial), RaftStore(put, current), RaftStore(born, initial)];
    ops := [StoreOp.CrashOp(current, f, [encoded], 0), RestartOp([[]], 0)];
    NewStore(crc, codec, options, initial);
    PutRecord(crc, born, record, put);
    PutReadBack(crc, codec, options, initial, current, put);
    assert StoreNext(crc, codec, initial, sts[0], ops[0], sts[1]);
    assert StoreNext(crc, codec, initial, sts[1], ops[1], sts[2]);
  }

  /** An empty directory and a directory with one empty file open alike. */
  lemma NewStore(crc: W.Checksum, codec: Codec, options: WalLog.Options, initial: Persistent)
    requires Sized(options)
    ensures var st := RaftStore(State(options, [[]], 0, 0, 0, 0, false), initial);
            && OpenStore(crc, codec, [], options, 0, initial) == Done(st)
            && OpenStore(crc, codec, [[]], options, 0, initial) == Done(st)
  {
    EmptyFrames(crc);
    ScanClean(crc, [], 0, options.segmentSize);
    EmptyStream(crc, options.segmentSize);
    hide StreamAll, Scan;
    var none: seq<Bytes> := [[]];
    assert RecoverFrom(crc, none, options.segmentSize, 1) == W.Ok(none);
    assert SumLen(none) == 0 by { assert none[..0] == []; }
    assert Replay(codec, initial, []) == Done(initial);
  }

  lemma PutRecord(crc: W.Checksum, w: State, record: W.Record, w': State)
    requires |record.payload| <= W.U32_MAX && !w.options.syncOnAppend && Sized(w.options)
    requires W.HEADER_LEN + |record.payload| <= w.options.segmentSize
    requires W.HEADER_LEN + |record.payload| <= w.options.maxSize
    requires w == State(w.options, [[]], 0, 0, 0, 0, false)
    requires var encoded := W.Encoded(crc, record);
             w' == State(w.options, [encoded], 0, |encoded|, |encoded|, 0, false)
    ensures Append(crc, w, record, NO_FAULTS).0 == w'
  {
    hide W.Encoded;
    assert [] + W.Encoded(crc, record) == W.Encoded(crc, record);
  }

  lemma PutReadBack(crc: W.Checksum, codec: Codec, options: WalLog.Options, initial: Persistent, current: Persistent,
                    w: State)
    requires Faithful(codec) && Store.Advances(initial, current) && Sized(options)
    requires var record := RecordFor(codec, initial, current);
             && |record.payload| <= W.U32_MAX && W.HEADER_LEN + |record.payload| <= options.segmentSize
             && W.HEADER_LEN + |record.payload| <= options.maxSize
             && var encoded := W.Encoded(crc, record);
             w == State(options, [encoded], 0, |encoded|, |encoded|, 0, false)
    ensures OpenStore(crc, codec, w.segments, options, 0, initial) == Done(RaftStore(w, current))
  {
    var record := RecordFor(codec, initial, current);
    OneRecord(crc, options, record, w);
    hide Store.Advances, W.Encoded, DeltaFor, Holds, AllStored, Open, StreamAll;
    assert Replay(codec, initial, []) == Done(initial);
    ReplayNext(codec, initial, [], W.Lsn(0, 0), initial, current);
    var stored := [W.StoredRecord(W.Lsn(0, 0), record)];
    assert [] + stored == stored;
  }

  lemma OneRecord(crc: W.Checksum, options: WalLog.Options, record: W.Record, w: State)
    requires Sized(options) && |record.payload| <= W.U32_MAX
    requires W.HEADER_LEN + |record.payload| <= options.segmentSize
    requires W.HEADER_LEN + |record.payload| <= options.maxSize
    requires var encoded := W.Encoded(crc, record);
             w == State(options, [encoded], 0, |encoded|, |encoded|, 0, false)
    ensures Open(crc, w.segments, options, 0) == W.Ok(w)
    ensures StreamAll(crc, w.segments, 0, options.segmentSize) == ([W.StoredRecord(W.Lsn(0, 0), record)], None)
  {
    hide W.Encoded;
    OneFrame(crc, record);
    ScanClean(crc, [record], 0, options.segmentSize);
    StreamExact(crc, w.segments, [[record]], options.segmentSize, 0);
    hide Frames, Scan, StreamAll;
    assert [[record]][..0] == [];
    NoneStored(crc);
    assert RecoverFrom(crc, w.segments, options.segmentSize, 1) == W.Ok(w.segments);
    assert SumLen(w.segments) == |w.segments[0]| by { assert w.segments[..0] == []; }
  }

  lemma OneFrame(crc: W.Checksum, record: W.Record)
    requires |record.payload| <= W.U32_MAX
    ensures Encodable([record]) && AllEncodable([[record]])
    ensures Frames(crc, [record]) == W.Encoded(crc, record)
    ensures AllStored(crc, [[record]]) == [W.StoredRecord(W.Lsn(0, 0), record)]
  {
    hide W.Encoded;
    assert [record][..0] == [];
    assert [[record]][..0] == [];
  }
}
