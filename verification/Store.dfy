/** Durable Raft state as deltas (basisdb-node/src/store.rs): each save records the hard
    state and only the changed suffix of the log; recovery replays the deltas. */
module Store {
  import opened Types
  import opened Membership
  import opened RaftLog
  import opened RaftCore
  import Merging
  import W = WalFormat

  const RAFT_STATE_KIND: W.Kind := 1

  datatype Delta = Delta(
    term: Term, votedFor: Option<NodeId>, bootstrap: Configuration, truncateAfter: LogIndex, entries: seq<Entry>)

  /** The serialisation of deltas, which the model leaves open. */
  datatype Codec = Codec(encode: Delta -> Bytes, decode: Bytes -> Option<Delta>)

  ghost predicate Faithful(codec: Codec) {
    forall d :: codec.decode(codec.encode(d)) == Some(d)
  }

  datatype StoreError =
    | WalFailed(error: W.WalError)
    | DecodeFailed
    | UnexpectedKind(found: nat)
    | TermRegression(previous: Term, next: Term)
    | InvalidTruncation(index: LogIndex, lastIndex: LogIndex)
    | NoncontiguousEntry(expected: LogIndex, found: LogIndex)
    | SnapshotUnsupported

  datatype Outcome<+T> = Done(value: T) | Failed(error: StoreError)

  // ----- The delta of two states -----

  /** The highest index, down to `floor`, at which the two logs have the same term. */
  function CommonFrom(a: Log, b: Log, floor: LogIndex, index: LogIndex): (k: LogIndex)
    ensures k <= index
  {
    if index > floor && a.TermAt(index) != b.TermAt(index) then CommonFrom(a, b, floor, index - 1) else index
  }

  function CommonPrefix(durable: Persistent, current: Persistent): LogIndex {
    CommonFrom(durable.log, current.log, Max(durable.log.snapshotIndex, current.log.snapshotIndex),
      Min(durable.log.LastIndex(), current.log.LastIndex()))
  }

  method CommonPrefixLoop(durable: Persistent, current: Persistent) returns (index: LogIndex)
    ensures index == CommonPrefix(durable, current)
  {
    var floor := Max(durable.log.snapshotIndex, current.log.snapshotIndex);
    index := Min(durable.log.LastIndex(), current.log.LastIndex());
    while index > floor && durable.log.TermAt(index) != current.log.TermAt(index)
      invariant CommonFrom(durable.log, current.log, floor, index) == CommonPrefix(durable, current)
    {
      index := index - 1;
    }
  }

  function DeltaFor(durable: Persistent, current: Persistent): Delta {
    var k := CommonPrefix(durable, current);
    Delta(current.term, current.votedFor, current.bootstrap, k, current.log.Slice(k + 1, current.log.LastIndex()))
  }

  // ----- Applying a delta -----

  /** Appends entries as long as each carries the next index. */
  function AppendAll(log: Log, entries: seq<Entry>): Outcome<Log> {
    if entries == [] then Done(log)
    else
      match AppendAll(log, entries[..|entries| - 1])
      case Failed(e) => Failed(e)
      case Done(l) =>
        var entry := entries[|entries| - 1];
        if entry.index != l.LastIndex() + 1 then Failed(NoncontiguousEntry(l.LastIndex() + 1, entry.index))
        else Done(l.Append(entry))
  }

  function ApplyDelta(state: Persistent, delta: Delta): Outcome<Persistent> {
    if delta.term < state.term then Failed(TermRegression(state.term, delta.term))
    else if delta.truncateAfter > state.log.LastIndex() then
      Failed(InvalidTruncation(delta.truncateAfter, state.log.LastIndex()))
    else
      match AppendAll(state.log.TruncateAfter(delta.truncateAfter), delta.entries)
      case Failed(e) => Failed(e)
      case Done(log) => Done(Persistent(delta.term, delta.votedFor, log, delta.bootstrap))
  }

  lemma {:induction false} AppendAllFails(log: Log, entries: seq<Entry>, k: nat)
    requires k <= |entries| && AppendAll(log, entries[..k]).Failed?
    ensures AppendAll(log, entries) == AppendAll(log, entries[..k])
  {
    if k < |entries| {
      var init := entries[..|entries| - 1];
      assert init[..k] == entries[..k];
      AppendAllFails(log, init, k);
    } else {
      assert entries[..k] == entries;
    }
  }

  method ApplyDeltaLoop(state: Persistent, delta: Delta) returns (r: Outcome<Persistent>)
    ensures r == ApplyDelta(state, delta)
  {
    if delta.term < state.term {
      return Failed(TermRegression(state.term, delta.term));
    }
    var lastIndex := state.log.LastIndex();
    if delta.truncateAfter > lastIndex {
      return Failed(InvalidTruncation(delta.truncateAfter, lastIndex));
    }
    var start := state.log.TruncateAfter(delta.truncateAfter);
    var log := start;
    for k := 0 to |delta.entries|
      invariant AppendAll(start, delta.entries[..k]) == Done(log)
    {
      var entry, expected := delta.entries[k], log.LastIndex() + 1;
      assert delta.entries[..k + 1][..k] == delta.entries[..k];
      if entry.index != expected {
        AppendAllFails(start, delta.entries, k + 1);
        return Failed(NoncontiguousEntry(expected, entry.index));
      }
      log := log.Append(entry);
    }
    assert delta.entries[..|delta.entries|] == delta.entries;
    r := Done(Persistent(delta.term, delta.votedFor, log, delta.bootstrap));
  }

  // ----- Replay is exact -----

  /** Logs the store can compare: numbered past the same snapshot. */
  ghost predicate Comparable(a: Log, b: Log) {
    a.Contiguous() && b.Contiguous() && a.snapshotIndex == b.snapshotIndex
  }

  lemma {:induction false} AppendAllContiguous(log: Log, entries: seq<Entry>)
    requires log.Contiguous()
    requires forall k :: 0 <= k < |entries| ==> entries[k].index == log.LastIndex() + 1 + k
    ensures AppendAll(log, entries) == Done(log.(entries := log.entries + entries))
  {
    if entries != [] {
      var init := entries[..|entries| - 1];
      AppendAllContiguous(log, init);
      assert log.entries + entries == log.entries + init + [entries[|entries| - 1]];
    } else {
      assert log.entries + entries == log.entries;
    }
  }

  lemma LastIndexIs(log: Log)
    requires log.Contiguous()
    ensures log.LastIndex() == log.snapshotIndex + |log.entries|
  {
  }

  /** Where the common prefix ends, in entries. */
  lemma {:induction false} CommonIs(a: Log, b: Log, index: LogIndex)
    requires Comparable(a, b) && a.snapshotIndex <= index
    requires index <= a.snapshotIndex + |a.entries| && index <= b.snapshotIndex + |b.entries|
    ensures var k := CommonFrom(a, b, a.snapshotIndex, index);
            && a.snapshotIndex <= k
            && (k == a.snapshotIndex || a.entries[k - a.snapshotIndex - 1].term
                == b.entries[k - a.snapshotIndex - 1].term)
  {
    if index > a.snapshotIndex && a.TermAt(index) != b.TermAt(index) {
      CommonIs(a, b, index - 1);
    }
  }

  /** What the delta rebuilds: the durable log up to the common point, then the current one. */
  lemma Rebuilt(d: Persistent, c: Persistent)
    requires Comparable(d.log, c.log)
    ensures var s, k := d.log.snapshotIndex, CommonPrefix(d, c);
            && s <= k <= s + |d.log.entries| && k <= s + |c.log.entries|
            && (k == s || d.log.entries[k - s - 1].term == c.log.entries[k - s - 1].term)
            && ApplyDelta(d, DeltaFor(d, c)) ==
               if c.term < d.term then Failed(TermRegression(d.term, c.term))
               else Done(c.(log := d.log.(entries := d.log.entries[..k - s] + c.log.entries[k - s..])))
  {
    hide AppendAll;
    LastIndexIs(d.log);
    LastIndexIs(c.log);
    var s, k := d.log.snapshotIndex, CommonPrefix(d, c);
    CommonIs(d.log, c.log, Min(d.log.LastIndex(), c.log.LastIndex()));
    var cut := d.log.TruncateAfter(k);
    CutIs(d.log, k);
    SliceIs(c.log, k);
    LastIndexIs(cut);
    AppendAllContiguous(cut, c.log.entries[k - s..]);
  }

  lemma CutIs(log: Log, k: LogIndex)
    requires log.Contiguous() && log.snapshotIndex <= k <= log.snapshotIndex + |log.entries|
    ensures log.TruncateAfter(k) == log.(entries := log.entries[..k - log.snapshotIndex])
    ensures log.TruncateAfter(k).Contiguous()
  {
  }

  lemma SliceIs(log: Log, k: LogIndex)
    requires log.Contiguous() && log.snapshotIndex <= k <= log.snapshotIndex + |log.entries|
    ensures log.Slice(k + 1, log.LastIndex()) == log.entries[k - log.snapshotIndex..]
  {
    LastIndexIs(log);
  }

  /** The two logs are one log up to the common point. */
  ghost predicate SamePrefix(d: Persistent, c: Persistent)
    requires Comparable(d.log, c.log)
  {
    Rebuilt(d, c);
    var n := CommonPrefix(d, c) - d.log.snapshotIndex;
    d.log.entries[..n] == c.log.entries[..n]
  }

  ghost predicate SameSnapshot(a: Log, b: Log) {
    a.snapshotIndex == b.snapshotIndex && a.snapshotTerm == b.snapshotTerm && a.snapshotConfig == b.snapshotConfig
  }

  /** Applying the saved delta rebuilds the new state exactly when the term has not gone back
      and the logs agree below their last common term. */
  lemma ReplayExactIff(d: Persistent, c: Persistent)
    requires Comparable(d.log, c.log)
    ensures ApplyDelta(d, DeltaFor(d, c)) == Done(c) <==>
              d.term <= c.term && SameSnapshot(d.log, c.log) && SamePrefix(d, c)
  {
    hide ApplyDelta, DeltaFor, CommonPrefix;
    Rebuilt(d, c);
    SpliceIff(d.log.entries, c.log.entries, CommonPrefix(d, c) - d.log.snapshotIndex);
  }

  lemma SpliceIff(a: seq<Entry>, b: seq<Entry>, n: nat)
    requires n <= |a| && n <= |b|
    ensures a[..n] + b[n..] == b <==> a[..n] == b[..n]
  {
    assert b[..n] + b[n..] == b;
    assert (a[..n] + b[n..])[..n] == a[..n];
  }

  /** What a save needs of the state before it. */
  ghost predicate Advances(d: Persistent, c: Persistent) {
    && Comparable(d.log, c.log) && SameSnapshot(d.log, c.log)
    && d.term <= c.term && Merging.Matching(d.log.entries, c.log.entries)
  }

  lemma ReplayExact(d: Persistent, c: Persistent)
    requires Advances(d, c)
    ensures ApplyDelta(d, DeltaFor(d, c)) == Done(c)
  {
    Rebuilt(d, c);
    var n := CommonPrefix(d, c) - d.log.snapshotIndex;
    if n > 0 {
      assert d.log.entries[..n - 1 + 1] == c.log.entries[..n - 1 + 1];
    }
    ReplayExactIff(d, c);
  }

  /** Without Log Matching the delta can rebuild a state that never existed. */
  lemma MismatchedReplay()
    ensures var x, y, z := Entry(1, 1, Command([1])), Entry(1, 1, Command([2])), Entry(1, 2, Command([3]));
            var log := (es: seq<Entry>) => Log(es, 0, 0, None);
            var d, c := Persistent(1, None, log([x, z]), Simple({}, {})),
                Persistent(1, None, log([y, z]), Simple({}, {}));
            ApplyDelta(d, DeltaFor(d, c)) == Done(d) && d != c
  {
    var x, y, z := Entry(1, 1, Command([1])), Entry(1, 1, Command([2])), Entry(1, 2, Command([3]));
    var d := Persistent(1, None, Log([x, z], 0, 0, None), Simple({}, {}));
    var c := Persistent(1, None, Log([y, z], 0, 0, None), Simple({}, {}));
    Rebuilt(d, c);
    assert CommonFrom(d.log, c.log, 0, 2) == 2;
    assert d.log.entries[..2] + c.log.entries[2..] == d.log.entries;
    assert d.log.entries[0] != c.log.entries[0];
  }
}
