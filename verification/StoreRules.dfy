/** What a delta holds, and exactly when one can be applied (basisdb-node/src/store.rs). */
module StoreRules {
  import opened Types
  import opened RaftLog
  import opened RaftCore
  import LogRules
  import opened Store

  // ----- Saving -----

  lemma {:induction false} CommonIs(a: Log, b: Log, floor: LogIndex, index: LogIndex)
    ensures var k := CommonFrom(a, b, floor, index);
            && (index >= floor ==> k >= floor)
            && (k > floor ==> a.TermAt(k) == b.TermAt(k))
            && forall j :: k < j <= index ==> a.TermAt(j) != b.TermAt(j)
  {
    if index > floor && a.TermAt(index) != b.TermAt(index) {
      CommonIs(a, b, floor, index - 1);
    }
  }

  /** A delta has the new term, vote and configuration, and the new log from behind the last
      index at which both logs have the same term, or from behind the snapshot. */
  lemma DeltaHolds(durable: Persistent, current: Persistent)
    requires durable.log.Contiguous() && current.log.Contiguous()
    requires durable.log.snapshotIndex == current.log.snapshotIndex
    ensures var (d, a, b) := (DeltaFor(durable, current), durable.log, current.log);
            var (k, common) := (d.truncateAfter, Min(a.LastIndex(), b.LastIndex()));
            && d.term == current.term && d.votedFor == current.votedFor && d.bootstrap == current.bootstrap
            && b.snapshotIndex <= k <= common
            && (k > b.snapshotIndex ==> a.TermAt(k) == b.TermAt(k))
            && (forall j :: k < j <= common ==> a.TermAt(j) != b.TermAt(j))
            && |d.entries| == b.LastIndex() - k
            && forall i: nat :: i < |d.entries| ==> Some(d.entries[i]) == b.Get(k + 1 + i)
  {
    hide CommonFrom, Log.Slice, Log.Get, Log.TermAt, Log.LastIndex, Log.Contiguous;
    LogRules.EntriesAt(durable.log, 0);
    LogRules.EntriesAt(current.log, 0);
    var common := Min(durable.log.LastIndex(), current.log.LastIndex());
    CommonIs(durable.log, current.log, current.log.snapshotIndex, common);
    var (d, b) := (DeltaFor(durable, current), current.log);
    LogRules.SliceAt(b, d.truncateAfter + 1, b.LastIndex(), 0);
    forall i: nat | i < |d.entries| ensures Some(d.entries[i]) == b.Get(d.truncateAfter + 1 + i) {
      LogRules.SliceAt(b, d.truncateAfter + 1, b.LastIndex(), i);
    }
  }

  // ----- Applying -----

  /** Where the log ends once it is cut as the delta says. */
  function Base(state: Persistent, delta: Delta): LogIndex {
    Max(state.log.snapshotIndex, delta.truncateAfter)
  }

  predicate GoesOn(base: LogIndex, entries: seq<Entry>) {
    forall k :: 0 <= k < |entries| ==> entries[k].index == base + 1 + k
  }

  lemma {:induction false} AppendAllIff(log: Log, entries: seq<Entry>)
    requires log.Contiguous()
    ensures GoesOn(log.LastIndex(), entries) ==> AppendAll(log, entries) == Done(log.(entries := log.entries + entries))
    ensures !GoesOn(log.LastIndex(), entries) ==>
              exists k :: && 0 <= k < |entries| && GoesOn(log.LastIndex(), entries[..k])
                          && entries[k].index != log.LastIndex() + 1 + k
                          && AppendAll(log, entries)
                              == Failed(NoncontiguousEntry(log.LastIndex() + 1 + k, entries[k].index))
  {
    if GoesOn(log.LastIndex(), entries) {
      AppendAllContiguous(log, entries);
    } else {
      var init, k := entries[..|entries| - 1], |entries| - 1;
      AppendAllIff(log, init);
      if GoesOn(log.LastIndex(), init) {
        Extended(log, init);
        assert entries[..k] == init && entries[k].index != log.LastIndex() + 1 + k;
      } else {
        var j :| && 0 <= j < |init| && GoesOn(log.LastIndex(), init[..j])
                 && init[j].index != log.LastIndex() + 1 + j
                 && AppendAll(log, init) == Failed(NoncontiguousEntry(log.LastIndex() + 1 + j, init[j].index));
        assert init[..j] == entries[..j] && init[j] == entries[j];
      }
    }
  }

  lemma Extended(log: Log, entries: seq<Entry>)
    requires log.Contiguous() && GoesOn(log.LastIndex(), entries)
    ensures var log' := log.(entries := log.entries + entries);
            log'.Contiguous() && log'.LastIndex() == log.LastIndex() + |entries|
  {
  }

  /** A delta can be applied exactly if its term is not behind, it cuts within the log, and its
      entries go on from there. The result has its term, vote and configuration, the log up to
      the cut, and its entries. */
  lemma ApplyIff(state: Persistent, delta: Delta)
    requires state.log.Contiguous()
    ensures var (r, log, base) := (ApplyDelta(state, delta), state.log, Base(state, delta));
            && (r.Done? <==>
                  state.term <= delta.term && delta.truncateAfter <= log.LastIndex() && GoesOn(base, delta.entries))
            && (r.Done? ==>
                  && r.value.(log := log) == Persistent(delta.term, delta.votedFor, log, delta.bootstrap)
                  && r.value.log.(entries := log.entries) == log
                  && r.value.log.Contiguous() && r.value.log.LastIndex() == base + |delta.entries|
                  && forall i: LogIndex ::
                       r.value.log.Get(i) ==
                       if i <= base then log.Get(i)
                       else if i <= base + |delta.entries| then Some(delta.entries[i - base - 1]) else None)
  {
    hide AppendAll, GoesOn;
    var cut := state.log.TruncateAfter(delta.truncateAfter);
    LogRules.CutAt(state.log, delta.truncateAfter, 0);
    if delta.truncateAfter <= state.log.LastIndex() {
      LogRules.EntriesAt(state.log, 0);
      AppendAllIff(cut, delta.entries);
      if GoesOn(cut.LastIndex(), delta.entries) {
        Extended(cut, delta.entries);
        var last := cut.LastIndex();
        forall i: LogIndex
          ensures cut.(entries := cut.entries + delta.entries).Get(i) ==
                  if i <= last then state.log.Get(i)
                  else if i <= last + |delta.entries| then Some(delta.entries[i - last - 1]) else None
        {
          LogRules.CutAt(state.log, delta.truncateAfter, i);
        }
      }
    }
  }

  /** Otherwise the error says the first thing that is wrong. */
  lemma RefusedAs(state: Persistent, delta: Delta)
    requires state.log.Contiguous() && ApplyDelta(state, delta).Failed?
    ensures var (e, last, base) := (ApplyDelta(state, delta).error, state.log.LastIndex(), Base(state, delta));
            if delta.term < state.term then e == TermRegression(state.term, delta.term)
            else if delta.truncateAfter > last then e == InvalidTruncation(delta.truncateAfter, last)
            else exists k :: && 0 <= k < |delta.entries| && GoesOn(base, delta.entries[..k])
                             && delta.entries[k].index != base + 1 + k
                             && e == NoncontiguousEntry(base + 1 + k, delta.entries[k].index)
  {
    hide AppendAll, GoesOn;
    LogRules.CutAt(state.log, delta.truncateAfter, 0);
    LogRules.EntriesAt(state.log, 0);
    AppendAllIff(state.log.TruncateAfter(delta.truncateAfter), delta.entries);
  }
}
