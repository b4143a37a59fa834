/** What the follower's append loop does to a log (consensus/basisdb-raft/src/raft/follower.rs):
    the entry-by-entry loop of the node is the single cut-and-extend of the protocol. */
module Merging {
  import opened Types
  import opened RaftLog
  import opened FollowerRole
  import Protocol

  /** A log without a snapshot: numbered from 1, every term positive. */
  ghost predicate Plain(log: Log) {
    && log.snapshotIndex == 0 && log.snapshotTerm == 0 && log.snapshotConfig == None
    && log.Contiguous()
    && forall k :: 0 <= k < |log.entries| ==> log.entries[k].term > 0
  }

  /** Entries numbered just past `prev`. */
  ghost predicate Follows(entries: seq<Entry>, prev: nat) {
    forall k :: 0 <= k < |entries| ==> entries[k].index == prev + 1 + k && entries[k].term > 0
  }

  lemma PlainQueries(log: Log)
    requires Plain(log)
    ensures log.LastIndex() == |log.entries|
    ensures log.LastTerm() == Protocol.LastTerm(log.entries)
    ensures forall i: nat :: log.TermAt(i) == Protocol.TermAt(log.entries, i)
  {
  }

  /** The agreement count is the only one with its defining property. */
  lemma {:induction false} AgreeingIs(log: seq<Entry>, prev: nat, entries: seq<Entry>, k: nat, c: nat)
    requires k <= c <= |entries| && prev + c <= |log|
    requires forall j :: k <= j < c ==> log[prev + j].term == entries[j].term
    requires c == |entries| || prev + c >= |log| || log[prev + c].term != entries[c].term
    ensures Protocol.Agreeing(log, prev, entries, k) == c
    decreases c - k
  {
    if k < c {
      AgreeingIs(log, prev, entries, k + 1, c);
    }
  }

  /** One more entry, merged after the others, is merged with the others. */
  lemma MergeOneMore(log: seq<Entry>, prev: nat, entries: seq<Entry>, last: Entry)
    requires prev <= |log|
    ensures var before := Protocol.MergeAt(log, prev, entries);
            var n := prev + |entries|;
            var after := Protocol.MergeAt(log, prev, entries + [last]);
            && n <= |before|
            && (n == |before| ==> after == before + [last])
            && (n < |before| && before[n].term != last.term ==> after == before[..n] + [last])
            && (n < |before| && before[n].term == last.term ==> after == before)
  {
    var all := entries + [last];
    var c := Protocol.Agreeing(log, prev, entries, 0);
    Protocol.MergeShape(log, prev, entries);
    assert forall j :: 0 <= j < |entries| ==> all[j] == entries[j];
    if c < |entries| {
      AgreeingIs(log, prev, all, 0, c);
      assert all[c..] == entries[c..] + [last];
    } else if prev + c < |log| && log[prev + c].term == last.term {
      AgreeingIs(log, prev, all, 0, |all|);
    } else {
      AgreeingIs(log, prev, all, 0, c);
      assert all[c..] == [last];
    }
  }

  lemma MergeEntryIs(log: Log, entry: Entry)
    requires Plain(log) && 0 < entry.index <= |log.entries| + 1 && entry.term > 0
    ensures var n := entry.index - 1;
            var merged := MergeEntry(log, entry);
            && (n == |log.entries| ==> merged == log.(entries := log.entries + [entry]))
            && (n < |log.entries| && log.entries[n].term != entry.term ==>
                  merged == log.(entries := log.entries[..n] + [entry]))
            && (n < |log.entries| && log.entries[n].term == entry.term ==> merged == log)
  {
  }

  lemma MergeAtPlain(log: Log, prev: nat, entries: seq<Entry>)
    requires Plain(log) && prev <= |log.entries| && Follows(entries, prev)
    ensures Plain(log.(entries := Protocol.MergeAt(log.entries, prev, entries)))
  {
    Protocol.MergeShape(log.entries, prev, entries);
  }

  /** The loop refines the protocol's merge: for entries numbered just past `prev`, folding
      one entry at a time gives the log cut at the first disagreement and extended. */
  lemma {:induction false} MergeIsMergeAt(log: Log, prev: nat, entries: seq<Entry>)
    requires Plain(log) && prev <= |log.entries| && Follows(entries, prev)
    ensures Merge(log, entries) == log.(entries := Protocol.MergeAt(log.entries, prev, entries))
  {
    if entries != [] {
      var init, last := entries[..|entries| - 1], entries[|entries| - 1];
      assert entries == init + [last];
      MergeIsMergeAt(log, prev, init);
      MergeAtPlain(log, prev, init);
      MergeOneMore(log.entries, prev, init, last);
      MergeEntryIs(Merge(log, init), last);
    }
  }

  /** No entry appended means nothing changed: with no snapshot, a conflict is always
      followed by an append. This holds for any entries a message may carry. */
  lemma {:induction false} UnpersistedMerge(log: Log, entries: seq<Entry>)
    requires log.snapshotIndex == 0 && log.Contiguous()
    requires !MergePersists(log, entries)
    ensures Merge(log, entries) == log
  {
    if entries != [] {
      UnpersistedMerge(log, entries[..|entries| - 1]);
    }
  }

  /** For numbered entries the loop asks for persistence exactly when the log changes. */
  lemma PersistsIffChanged(log: Log, prev: nat, entries: seq<Entry>)
    requires Plain(log) && prev <= |log.entries| && Follows(entries, prev)
    ensures MergePersists(log, entries) <==> Merge(log, entries) != log
  {
    MergeIsMergeAt(log, prev, entries);
    PersistsIffDisagrees(log, prev, entries);
    MergeAtChanges(log.entries, prev, entries);
  }

  lemma MergeAtChanges(log: seq<Entry>, prev: nat, entries: seq<Entry>)
    requires prev <= |log|
    ensures Protocol.MergeAt(log, prev, entries) != log <==> Protocol.Agreeing(log, prev, entries, 0) < |entries|
  {
    Protocol.MergeShape(log, prev, entries);
    var c := Protocol.Agreeing(log, prev, entries, 0);
    if c < |entries| {
      assert Protocol.MergeAt(log, prev, entries)[prev + c] == entries[c];
    }
  }

  lemma {:induction false} PersistsIffDisagrees(log: Log, prev: nat, entries: seq<Entry>)
    requires Plain(log) && prev <= |log.entries| && Follows(entries, prev)
    ensures MergePersists(log, entries) <==> Protocol.Agreeing(log.entries, prev, entries, 0) < |entries|
  {
    if entries != [] {
      var init, last := entries[..|entries| - 1], entries[|entries| - 1];
      assert entries == init + [last];
      assert Follows(init, prev) && last.index == prev + |entries| && last.term > 0;
      hide Merge, MergePersists, MergeAppends, Protocol.Agreeing, Follows;
      MergeUnfold(log, entries);
      PersistsIffDisagrees(log, prev, init);
      AgreeingInit(log.entries, prev, init, last);
      if !MergePersists(log, init) {
        UnpersistedMerge(log, init);
        AppendsIff(log, last);
      }
    }
  }

  lemma AppendsIff(log: Log, entry: Entry)
    requires Plain(log) && 0 < entry.index && entry.term > 0
    ensures MergeAppends(log, entry) <==>
              entry.index > |log.entries| || log.entries[entry.index - 1].term != entry.term
  {
  }

  lemma AgreeingInit(log: seq<Entry>, prev: nat, init: seq<Entry>, last: Entry)
    requires prev <= |log|
    ensures var c := Protocol.Agreeing(log, prev, init, 0);
            var c' := Protocol.Agreeing(log, prev, init + [last], 0);
            && (c < |init| ==> c' == c)
            && (c == |init| ==>
                  c' == |init| + if prev + c < |log| && log[prev + c].term == last.term then 1 else 0)
  {
    var all := init + [last];
    var c := Protocol.Agreeing(log, prev, init, 0);
    Protocol.MergeShape(log, prev, init);
    assert forall j :: 0 <= j < |init| ==> all[j] == init[j];
    if c == |init| && prev + c < |log| && log[prev + c].term == last.term {
      AgreeingIs(log, prev, all, 0, |all|);
    } else {
      AgreeingIs(log, prev, all, 0, c);
    }
  }

  /** With a snapshot that promise breaks: a conflicting entry at the snapshot index clears
      the log and is not itself appended, so nothing asks for persistence. */
  lemma SnapshotBoundaryLosesPersist()
    ensures var log := Log([Entry(1, 2, Command([]))], 1, 1, None);
            var entries := [Entry(2, 1, Command([]))];
            && log.Contiguous()
            && Merge(log, entries) != log
            && !MergePersists(log, entries)
  {
    var log := Log([Entry(1, 2, Command([]))], 1, 1, None);
    var entries := [Entry(2, 1, Command([]))];
    assert entries[..0] == [];
    assert Merge(log, entries[..0]) == log;
    assert MergeEntry(log, entries[0]).entries == [];
  }

  /** The entry conflicts with the term of the snapshot at its index, and entries follow it. */
  predicate ConflictsAtSnapshot(log: Log, entry: Entry) {
    && 0 < entry.index == log.snapshotIndex
    && log.snapshotTerm != 0 && log.snapshotTerm != entry.term
    && log.entries != []
  }

  /** Exactly when a round of the loop changes the log without appending. */
  lemma RoundLosesIff(log: Log, entry: Entry)
    requires log.Contiguous()
    ensures MergeEntry(log, entry) != log && !MergeAppends(log, entry) <==> ConflictsAtSnapshot(log, entry)
    ensures ConflictsAtSnapshot(log, entry) ==> MergeEntry(log, entry).LastIndex() == log.snapshotIndex
  {
    if log.entries != [] {
      assert log.LastIndex() == log.snapshotIndex + |log.entries|;
    }
    if entry.index > log.snapshotIndex && entry.index - log.snapshotIndex <= |log.entries| {
      var kept := log.entries[..entry.index - log.snapshotIndex - 1];
      assert kept != [] ==> kept[|kept| - 1].index == entry.index - 1;
    }
  }

  /** Consecutive numbers from just past `prev`. */
  ghost predicate Numbered(entries: seq<Entry>, prev: nat) {
    forall k :: 0 <= k < |entries| ==> entries[k].index == prev + 1 + k
  }

  /** Entries below the snapshot are passed over. */
  lemma {:induction false} BelowSnapshot(log: Log, prev: nat, entries: seq<Entry>)
    requires log.Contiguous() && Numbered(entries, prev) && prev + |entries| < log.snapshotIndex
    ensures Merge(log, entries) == log && !MergePersists(log, entries)
  {
    if entries != [] {
      BelowSnapshot(log, prev, entries[..|entries| - 1]);
    }
  }

  /** A request changes the log without asking for persistence exactly when its last entry
      conflicts with the snapshot: entries that follow the conflict would be appended. */
  lemma {:induction false} LostPersistIff(log: Log, prev: nat, entries: seq<Entry>)
    requires log.Contiguous() && Numbered(entries, prev)
    ensures Merge(log, entries) != log && !MergePersists(log, entries) <==>
              entries != [] && ConflictsAtSnapshot(log, entries[|entries| - 1])
  {
    if entries != [] {
      var init, last := entries[..|entries| - 1], entries[|entries| - 1];
      LostPersistIff(log, prev, init);
      MergeUnfold(log, entries);
      hide Merge, MergePersists, MergeEntry, MergeAppends;
      RoundLosesIff(log, last);
      if last.index == log.snapshotIndex {
        BelowSnapshot(log, prev, init);
      }
      if init != [] && ConflictsAtSnapshot(log, init[|init| - 1]) {
        AppendedNext(log, prev, init, last);
      }
    }
  }

  lemma MergeUnfold(log: Log, entries: seq<Entry>)
    requires entries != []
    ensures var init, last := entries[..|entries| - 1], entries[|entries| - 1];
            && Merge(log, entries) == MergeEntry(Merge(log, init), last)
            && (MergePersists(log, entries) <==> MergePersists(log, init) || MergeAppends(Merge(log, init), last))
  {
    hide MergeEntry, MergeAppends;
  }

  /** What follows a conflict at the snapshot is appended. */
  lemma AppendedNext(log: Log, prev: nat, init: seq<Entry>, next: Entry)
    requires log.Contiguous() && Numbered(init + [next], prev) && init != []
        && ConflictsAtSnapshot(log, init[|init| - 1])
    ensures MergeAppends(Merge(log, init), next)
  {
    var before, last := init[..|init| - 1], init[|init| - 1];
    assert (init + [next])[|init| - 1] == last && (init + [next])[|init|] == next;
    forall k | 0 <= k < |before| ensures before[k].index == prev + 1 + k {
      assert before[k] == (init + [next])[k];
    }
    MergeUnfold(log, init);
    hide Merge, MergeEntry;
    BelowSnapshot(log, prev, before);
    RoundLosesIff(log, last);
    AppendsPast(Merge(log, init), next);
  }

  lemma AppendsPast(log: Log, entry: Entry)
    requires log.LastIndex() == log.snapshotIndex && entry.index == log.LastIndex() + 1
    requires log.entries == []
    ensures MergeAppends(log, entry)
  {
  }

  // ----- Redelivery and reordering -----

  /** Equal terms at an index mean equal logs through it. */
  ghost predicate Matching(a: seq<Entry>, b: seq<Entry>) {
    forall k :: 0 <= k < |a| && k < |b| && a[k].term == b[k].term ==> a[..k + 1] == b[..k + 1]
  }

  /** A stretch of `leader` that passes the consistency check against `log`. */
  ghost predicate Stretch(log: seq<Entry>, leader: seq<Entry>, prev: nat, entries: seq<Entry>) {
    && prev + |entries| <= |leader|
    && entries == leader[prev..prev + |entries|]
    && prev <= |log|
    && (prev == 0 || log[prev - 1].term == leader[prev - 1].term)
  }

  /** Accepting a stretch of the leader's log: the log then holds the whole stretch on the
      leader's prefix, what it already shared with the leader is kept, and it is cut only
      when it really disagreed with the stretch. */
  lemma AcceptedStretch(log: seq<Entry>, leader: seq<Entry>, prev: nat, entries: seq<Entry>, shared: nat)
    requires Matching(log, leader) && Stretch(log, leader, prev, entries)
    requires shared <= |leader| && leader[..shared] <= log
    ensures var merged := Protocol.MergeAt(log, prev, entries);
            && leader[..prev + |entries|] <= merged
            && leader[..shared] <= merged
            && (merged == log || (merged == leader[..prev + |entries|] && !(merged <= log)))
            && Matching(merged, leader)
  {
    Protocol.MergeShape(log, prev, entries);
    var c := Protocol.Agreeing(log, prev, entries, 0);
    if c > 0 {
      assert entries[c - 1] == leader[prev + c - 1];
    }
    assert log[..prev + c] == leader[..prev + c];
    if c < |entries| {
      assert entries[c] == leader[prev + c];
      assert log[..prev + c] + entries[c..] == leader[..prev + |entries|];
    }
  }

  /** Delivering the same stretch again changes nothing. */
  lemma RedeliveryIsIdle(log: seq<Entry>, leader: seq<Entry>, prev: nat, entries: seq<Entry>)
    requires Matching(log, leader) && Stretch(log, leader, prev, entries)
    ensures var once := Protocol.MergeAt(log, prev, entries);
            && Stretch(once, leader, prev, entries)
            && Protocol.MergeAt(once, prev, entries) == once
  {
    var once := Protocol.MergeAt(log, prev, entries);
    AcceptedStretch(log, leader, prev, entries, 0);
    assert leader[..prev + |entries|] <= once;
    AcceptedStretch(once, leader, prev, entries, prev + |entries|);
  }

  datatype Request = Request(prev: nat, prevTerm: Term, entries: seq<Entry>)

  /** The log after a list of requests, each accepted only if it passes the consistency check. */
  function AfterAll(log: seq<Entry>, requests: seq<Request>): seq<Entry> {
    if requests == [] then log
    else
      var r := requests[|requests| - 1];
      var before := AfterAll(log, requests[..|requests| - 1]);
      if r.prev == 0 || Protocol.TermAt(before, r.prev) == r.prevTerm then Protocol.MergeAt(before, r.prev, r.entries)
      else before
  }

  /** A request cut from the leader's log, however long that log was at the time. */
  ghost predicate CutFrom(r: Request, leader: seq<Entry>) {
    && r.prev + |r.entries| <= |leader|
    && r.prevTerm == Protocol.TermAt(leader, r.prev)
    && r.entries == leader[r.prev..r.prev + |r.entries|]
  }

  /** Requests cut from one growing leader log, in any order and any number of times, never
      take back what the follower shares with the leader, never shorten a log that is
      already a prefix of the leader's, and leave every stretch that starts inside the
      shared part in the log. */
  lemma {:induction false} AnyOrder(log: seq<Entry>, leader: seq<Entry>, requests: seq<Request>, shared: nat)
    requires Matching(log, leader) && shared <= |leader| && leader[..shared] <= log
    requires forall k :: 0 <= k < |leader| ==> leader[k].term > 0
    requires forall r :: r in requests ==> CutFrom(r, leader)
    ensures var final := AfterAll(log, requests);
            && leader[..shared] <= final
            && Matching(final, leader)
            && (log <= leader ==> log <= final <= leader)
            && forall r :: r in requests && CutFrom(r, leader) && r.prev <= shared ==>
                 leader[..r.prev + |r.entries|] <= final
  {
    if requests != [] {
      var init, r := requests[..|requests| - 1], requests[|requests| - 1];
      AnyOrder(log, leader, init, shared);
      var before := AfterAll(log, init);
      if r.prev == 0 || Protocol.TermAt(before, r.prev) == r.prevTerm {
        OneMore(log, before, leader, r, shared);
        forall q | q in init && q.prev <= shared
          ensures leader[..q.prev + |q.entries|] <= AfterAll(log, requests)
        {
          AcceptedStretch(before, leader, r.prev, r.entries, q.prev + |q.entries|);
        }
      }
    }
  }

  lemma OneMore(log: seq<Entry>, before: seq<Entry>, leader: seq<Entry>, r: Request, shared: nat)
    requires Matching(before, leader) && shared <= |leader| && leader[..shared] <= before
    requires forall k :: 0 <= k < |leader| ==> leader[k].term > 0
    requires CutFrom(r, leader) && (r.prev == 0 || Protocol.TermAt(before, r.prev) == r.prevTerm)
    requires log <= leader ==> log <= before <= leader
    ensures var final := Protocol.MergeAt(before, r.prev, r.entries);
            && leader[..shared] <= final && leader[..r.prev + |r.entries|] <= final
            && Matching(final, leader)
            && (log <= leader ==> log <= final <= leader)
  {
    AcceptedStretch(before, leader, r.prev, r.entries, shared);
    if log <= leader {
      assert leader[..|before|] == before;
      AcceptedStretch(before, leader, r.prev, r.entries, |before|);
    }
  }
}
