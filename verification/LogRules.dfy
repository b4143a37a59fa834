/** What the log answers, said of the entry at each index. */
module LogRules {
  import opened Types
  import opened Membership
  import opened RaftLog
  import opened RaftCore

  /** There is an entry at exactly the indices past the snapshot up to the last, each under its
      own number. */
  lemma EntriesAt(log: Log, i: LogIndex)
    requires log.Contiguous()
    ensures log.Get(i).Some? <==> log.snapshotIndex < i <= log.LastIndex()
    ensures log.Get(i).Some? ==> log.Get(i).value.index == i && log.TermAt(i) == log.Get(i).value.term
    ensures log.LastIndex() >= log.snapshotIndex
    ensures log.snapshotIndex < log.LastIndex() ==> log.LastTerm() == log.TermAt(log.LastIndex())
    ensures log.snapshotIndex == log.LastIndex() ==> log.LastTerm() == log.snapshotTerm
    ensures 0 < i == log.snapshotIndex ==> log.TermAt(i) == log.snapshotTerm
    ensures i == 0 || i < log.snapshotIndex || i > log.LastIndex() ==> log.TermAt(i) == 0
  {
  }

  /** Appending adds the next entry and leaves the others. */
  lemma AppendedAt(log: Log, entry: Entry, i: LogIndex)
    requires log.Contiguous() && entry.index == log.LastIndex() + 1
    ensures var log' := log.Append(entry);
            && log'.Contiguous() && log'.LastIndex() == entry.index && log'.LastTerm() == entry.term
            && log'.Get(i) == (if i == entry.index then Some(entry) else log.Get(i))
            && log'.(entries := log.entries) == log
  {
  }

  /** Cutting after an index keeps the entries up to it and no other. */
  lemma CutAt(log: Log, index: LogIndex, i: LogIndex)
    requires log.Contiguous()
    ensures var log' := log.TruncateAfter(index);
            && log'.Contiguous()
            && log'.Get(i) == (if i <= index then log.Get(i) else None)
            && log'.LastIndex() == Max(log.snapshotIndex, Min(index, log.LastIndex()))
            && log'.(entries := log.entries) == log
  {
  }

  /** A slice is the entries from one index to another, as far as the log has them. */
  lemma SliceAt(log: Log, i: LogIndex, j: LogIndex, k: nat)
    requires log.Contiguous() && log.snapshotIndex < i
    ensures |log.Slice(i, j)| == if i > Min(j, log.LastIndex()) then 0 else Min(j, log.LastIndex()) + 1 - i
    ensures k < |log.Slice(i, j)| ==> Some(log.Slice(i, j)[k]) == log.Get(i + k)
  {
    SliceForm(log, i, j);
  }

  // ----- The configuration in force -----

  predicate HasConfig(log: Log, i: LogIndex) {
    log.Get(i).Some? && log.Get(i).value.payload.Config?
  }

  lemma {:induction false} LatestAt(entries: seq<Entry>, k: nat)
    requires k < |entries| && entries[k].payload.Config?
    requires forall j :: k < j < |entries| ==> !entries[j].payload.Config?
    ensures LatestConfig(entries) == Some(entries[k].payload.config)
  {
    if k < |entries| - 1 {
      LatestAt(entries[..|entries| - 1], k);
    }
  }

  lemma {:induction false} LatestNone(entries: seq<Entry>)
    requires forall j :: 0 <= j < |entries| ==> !entries[j].payload.Config?
    ensures LatestConfig(entries) == None
  {
    if entries != [] {
      LatestNone(entries[..|entries| - 1]);
    }
  }

  /** The configuration at an index is the one in the last entry up to there that has one. */
  lemma ConfigIs(log: Log, index: LogIndex, i: LogIndex)
    requires log.Contiguous() && i <= index && HasConfig(log, i)
    requires forall j: LogIndex :: i < j <= index ==> !HasConfig(log, j)
    ensures log.ConfigAt(index) == Some(log.Get(i).value.payload.config)
  {
    var part := log.entries[..Min(index - log.snapshotIndex, |log.entries|)];
    var k := i - log.snapshotIndex - 1;
    forall j | k < j < |part| ensures !part[j].payload.Config? {
      assert !HasConfig(log, log.snapshotIndex + 1 + j);
    }
    LatestAt(part, k);
  }

  /** With none it is that of the snapshot. */
  lemma ConfigOfSnapshot(log: Log, index: LogIndex)
    requires log.Contiguous() && forall j: LogIndex :: j <= index ==> !HasConfig(log, j)
    ensures log.ConfigAt(index) == log.snapshotConfig
  {
    if index > log.snapshotIndex {
      var part := log.entries[..Min(index - log.snapshotIndex, |log.entries|)];
      forall j | 0 <= j < |part| ensures !part[j].payload.Config? {
        assert !HasConfig(log, log.snapshotIndex + 1 + j);
      }
      LatestNone(part);
    }
  }

  /** The configuration in force is the last one in the log, committed or not; without any, the
      snapshot's; without a snapshot's, the one the server was started with. */
  lemma InForce(core: Core, i: LogIndex)
    requires core.p.log.Contiguous()
    ensures HasConfig(core.p.log, i) && (forall j: LogIndex :: i < j ==> !HasConfig(core.p.log, j)) ==>
              core.EffectiveConfig() == core.p.log.Get(i).value.payload.config
    ensures (forall j: LogIndex :: !HasConfig(core.p.log, j)) ==>
              core.EffectiveConfig() == match core.p.log.snapshotConfig
                                        case Some(c) => c
                                        case None => core.p.bootstrap
  {
    var log := core.p.log;
    EntriesAt(log, i);
    if HasConfig(log, i) && forall j: LogIndex :: i < j ==> !HasConfig(log, j) {
      ConfigIs(log, log.LastIndex(), i);
    }
    if forall j: LogIndex :: !HasConfig(log, j) {
      ConfigOfSnapshot(log, log.LastIndex());
    }
  }
}
