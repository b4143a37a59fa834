/** The replicated log with its snapshot offset (consensus/basisdb-raft/src/raft/log.rs). */
module RaftLog {
  import opened Types
  import opened Membership

  datatype Payload = Command(bytes: Bytes) | Config(config: Configuration)

  datatype Entry = Entry(term: Term, index: LogIndex, payload: Payload)

  /** The most recent configuration among `entries`. */
  function LatestConfig(entries: seq<Entry>): Option<Configuration> {
    if entries == [] then None
    else if entries[|entries| - 1].payload.Config? then Some(entries[|entries| - 1].payload.config)
    else LatestConfig(entries[..|entries| - 1])
  }

  function OrElse<T>(a: Option<T>, b: Option<T>): Option<T> {
    if a.Some? then a else b
  }

  datatype Log = Log(
    entries: seq<Entry>,
    snapshotIndex: LogIndex,
    snapshotTerm: Term,
    snapshotConfig: Option<Configuration>)
  {
    /** Entries are contiguous from just past the snapshot. */
    ghost predicate Contiguous() {
      forall k :: 0 <= k < |entries| ==> entries[k].index == snapshotIndex + 1 + k
    }

    function LastIndex(): LogIndex {
      if entries == [] then snapshotIndex else entries[|entries| - 1].index
    }

    function LastTerm(): Term {
      if entries == [] then snapshotTerm else entries[|entries| - 1].term
    }

    function TermAt(index: LogIndex): Term {
      if index == 0 || index < snapshotIndex then 0
      else if index == snapshotIndex then snapshotTerm
      else if index - snapshotIndex - 1 < |entries| then entries[index - snapshotIndex - 1].term
      else 0
    }

    function Get(index: LogIndex): Option<Entry> {
      if index == 0 || index <= snapshotIndex then None
      else if index - snapshotIndex - 1 < |entries| then Some(entries[index - snapshotIndex - 1])
      else None
    }

    function Append(entry: Entry): Log {
      this.(entries := entries + [entry])
    }

    /** Keeps what lies at or before `index`; the snapshot metadata always survives. */
    function TruncateAfter(index: LogIndex): Log {
      if index <= snapshotIndex then this.(entries := [])
      else if index - snapshotIndex < |entries| then this.(entries := entries[..index - snapshotIndex])
      else this
    }

    /** Discards what lies at or before `index` after a snapshot was taken there. */
    function TruncatePrefix(index: LogIndex, term: Term): Log {
      if index <= snapshotIndex then this
      else
        var removed := index - snapshotIndex;
        Log(if removed >= |entries| then [] else entries[removed..], index, term, ConfigAt(index))
    }

    /** Entries `start` to `end`, both included, clamped to what is available. */
    function Slice(start: LogIndex, end: LogIndex): seq<Entry> {
      var from := Max(start, snapshotIndex + 1);
      if from > end || entries == [] then []
      else
        var s := from - snapshotIndex - 1;
        var last := Min(end, LastIndex());
        var e := if last <= snapshotIndex then |entries| else last - snapshotIndex;
        if s >= |entries| || s >= e || e > |entries| then [] else entries[s..e]
    }

    function ConfigAt(index: LogIndex): Option<Configuration> {
      if index <= snapshotIndex then snapshotConfig
      else
        OrElse(LatestConfig(entries[..Min(index - snapshotIndex, |entries|)]), snapshotConfig)
    }
  }

  const EMPTY_LOG := Log([], 0, 0, None)

  /** Every query of the log gives the same answer in `a` and `b` at indices above `index`. */
  ghost predicate SameAbove(a: Log, b: Log, index: LogIndex) {
    && a.LastIndex() == b.LastIndex()
    && a.LastTerm() == b.LastTerm()
    && (forall i :: i > index ==> a.TermAt(i) == b.TermAt(i))
    && (forall i :: i > index ==> a.Get(i) == b.Get(i))
    && (forall i :: i > index ==> a.ConfigAt(i) == b.ConfigAt(i))
    && (forall i, j :: i > index ==> a.Slice(i, j) == b.Slice(i, j))
  }

  lemma {:induction false} LatestConfigConcat(a: seq<Entry>, b: seq<Entry>)
    ensures LatestConfig(a + b) == OrElse(LatestConfig(b), LatestConfig(a))
    decreases |b|
  {
    if b == [] {
      assert a + b == a;
    } else {
      assert (a + b)[..|a + b| - 1] == a + b[..|b| - 1];
      LatestConfigConcat(a, b[..|b| - 1]);
    }
  }

  /** Compaction is invisible: cutting the prefix at an index inside the log, with that
      index's own term, changes no answer above the cut, and keeps the term and the
      configuration at the cut itself. */
  lemma CompactionInvisible(log: Log, index: LogIndex)
    requires log.Contiguous()
    requires log.snapshotIndex <= index <= log.LastIndex()
    ensures var cut := log.TruncatePrefix(index, log.TermAt(index));
            && cut.Contiguous()
            && cut.snapshotIndex == index
            && SameAbove(log, cut, index)
            && cut.TermAt(index) == log.TermAt(index)
            && cut.ConfigAt(index) == log.ConfigAt(index)
  {
    CompactionKeepsEnds(log, index);
    hide Log.Slice, Log.ConfigAt, Log.Get, Log.TermAt, Log.LastIndex, Log.LastTerm;
    var cut := log.TruncatePrefix(index, log.TermAt(index));
    if index > log.snapshotIndex {
      forall i | i > index ensures log.TermAt(i) == cut.TermAt(i) && log.Get(i) == cut.Get(i) {
        CompactionKeepsEntry(log, index, i);
      }
      forall i | i > index ensures log.ConfigAt(i) == cut.ConfigAt(i) {
        CompactionKeepsConfig(log, index, i);
      }
      forall i, j | i > index ensures log.Slice(i, j) == cut.Slice(i, j) {
        CompactionKeepsSlice(log, index, i, j);
      }
    }
  }

  lemma CompactionKeepsEnds(log: Log, index: LogIndex)
    requires log.Contiguous() && log.snapshotIndex <= index <= log.LastIndex()
    ensures var cut := log.TruncatePrefix(index, log.TermAt(index));
            && cut.Contiguous() && cut.snapshotIndex == index
            && cut.LastIndex() == log.LastIndex() && cut.LastTerm() == log.LastTerm()
            && cut.TermAt(index) == log.TermAt(index) && cut.ConfigAt(index) == log.ConfigAt(index)
            && (index == log.snapshotIndex ==> cut == log)
  {
    hide LatestConfig;
  }

  lemma CompactionKeepsEntry(log: Log, index: LogIndex, i: LogIndex)
    requires log.Contiguous() && log.snapshotIndex < index <= log.LastIndex() && i > index
    ensures var cut := log.TruncatePrefix(index, log.TermAt(index));
            cut.TermAt(i) == log.TermAt(i) && cut.Get(i) == log.Get(i)
  {
    hide Log.ConfigAt;
  }

  lemma CompactionKeepsConfig(log: Log, index: LogIndex, i: LogIndex)
    requires log.Contiguous()
    requires log.snapshotIndex < index <= log.LastIndex() && i > index
    ensures log.TruncatePrefix(index, log.TermAt(index)).ConfigAt(i) == log.ConfigAt(i)
  {
    hide LatestConfig, Log.TermAt;
    var removed := index - log.snapshotIndex;
    var upto := Min(i - log.snapshotIndex, |log.entries|);
    SplitLatestConfig(log.entries, removed, upto);
    var kept := log.entries[removed..];
    assert kept[..Min(i - index, |kept|)] == log.entries[removed..upto];
    assert log.entries[..Min(removed, |log.entries|)] == log.entries[..removed];
  }

  lemma SplitLatestConfig(entries: seq<Entry>, mid: nat, upto: nat)
    requires mid <= upto <= |entries|
    ensures LatestConfig(entries[..upto])
         == OrElse(LatestConfig(entries[mid..upto]), LatestConfig(entries[..mid]))
  {
    assert entries[..upto] == entries[..mid] + entries[mid..upto];
    LatestConfigConcat(entries[..mid], entries[mid..upto]);
  }

  lemma CompactionKeepsSlice(log: Log, index: LogIndex, i: LogIndex, j: LogIndex)
    requires log.Contiguous()
    requires log.snapshotIndex < index <= log.LastIndex() && i > index
    ensures log.TruncatePrefix(index, log.TermAt(index)).Slice(i, j) == log.Slice(i, j)
  {
    hide Log.Slice, Log.TermAt, Log.ConfigAt, Log.LastIndex, Log.TruncatePrefix, Log.Contiguous;
    var cut, removed := log.TruncatePrefix(index, log.TermAt(index)), index - log.snapshotIndex;
    CompactionKeepsEnds(log, index);
    CompactionDrops(log, index);
    SliceForm(log, i, j);
    SliceForm(cut, i, j);
    var e := Min(j, log.LastIndex());
    if i <= e {
      DropThenSlice(log.entries, removed, i - index - 1, e - index);
    }
  }

  lemma CompactionDrops(log: Log, index: LogIndex)
    requires log.Contiguous() && log.snapshotIndex < index <= log.LastIndex()
    ensures log.LastIndex() == log.snapshotIndex + |log.entries|
    ensures log.TruncatePrefix(index, log.TermAt(index)).entries == log.entries[index - log.snapshotIndex..]
  {
    hide Log.ConfigAt;
  }

  lemma DropThenSlice(entries: seq<Entry>, dropped: nat, a: nat, b: nat)
    requires a <= b && dropped + b <= |entries|
    ensures entries[dropped..][a..b] == entries[dropped + a..dropped + b]
  {
  }

  /** What a slice is in a contiguous log. */
  lemma SliceForm(log: Log, i: LogIndex, j: LogIndex)
    requires log.Contiguous() && i > log.snapshotIndex
    ensures log.LastIndex() == log.snapshotIndex + |log.entries|
    ensures var e := Min(j, log.LastIndex());
            log.Slice(i, j) == if i > e then [] else log.entries[i - log.snapshotIndex - 1..e - log.snapshotIndex]
  {
  }
}
