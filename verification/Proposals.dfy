/** Where a proposed command goes (consensus/basisdb-raft/src/raft/leader.rs and mod.rs). */
module Proposals {
  import opened Types
  import opened Membership
  import opened RaftLog
  import opened Event
  import opened RaftCore
  import LeaderRole
  import LogRules
  import H = Heartbeat
  import CommitLoop
  import Numbering
  import opened RaftNode

  // ----- What the commit loop appends -----

  /** `b` is `a` and, after it, configurations of the term `term`. */
  ghost predicate Grows(a: Log, b: Log, term: Term) {
    && b.(entries := a.entries) == a && a.entries <= b.entries
    && forall k :: |a.entries| <= k < |b.entries| ==> b.entries[k].payload.Config? && b.entries[k].term == term
  }

  ghost predicate CoreGrows(a: Core, b: Core) {
    Grows(a.p.log, b.p.log, a.p.term) && b.WithLog(a.p.log).(commitIndex := a.commitIndex) == a
  }

  lemma GrowsOn(a: Core, b: Core, c: Core)
    requires CoreGrows(a, b) && CoreGrows(b, c)
    ensures CoreGrows(a, c)
  {
  }

  lemma TargetGrows(core: Core, state: LeaderState, target: Configuration)
    ensures CoreGrows(core, LeaderRole.AppendTarget(core, state, target).0)
  {
    hide LeaderRole.BroadcastAppend, LeaderRole.ReinitProgress;
  }

  lemma {:induction false} ProcessGrows(core: Core, state: LeaderState, index: LogIndex)
    requires index > 0
    ensures var r := LeaderRole.ProcessCommitted(core, state, index); r.Continue? ==> CoreGrows(core, r.core)
    decreases core.commitIndex + 1 - index
  {
    hide LeaderRole.AppendTarget, LeaderRole.AutoTransfer, LeaderRole.JointsPast, CoreGrows;
    if index <= core.commitIndex {
      ProcessGrows(core, state, index + 1);
      var entry := core.p.log.Get(index);
      if entry.Some? && entry.value.payload.Config? && entry.value.payload.config.Joint? {
        TargetGrows(core, state, entry.value.payload.config.TransitionTarget().value);
      }
    }
  }

  lemma {:induction false} CommitGrows(core: Core, state: LeaderState, effects: Effects)
    ensures CoreGrows(core, LeaderRole.MaybeCommit(core, state, effects).core)
    decreases LeaderRole.JointsPast(core.p.log, core.commitIndex)
  {
    hide LeaderRole.HighestCommittable, LeaderRole.JointsPast, Grows;
    GrowsSame(core.p.log, core.p.term);
    var advanced := LeaderRole.AdvanceCommit(core, state);
    if advanced.commitIndex != core.commitIndex {
      ProcessGrows(advanced, state, core.commitIndex + 1);
      var next := LeaderRole.ProcessCommitted(advanced, state, core.commitIndex + 1);
      hide LeaderRole.ProcessCommitted;
      if next.Continue? {
        CommitGrows(next.core, next.state, effects.Merge(next.effects));
        GrowsOn(advanced, next.core, LeaderRole.MaybeCommit(next.core, next.state, effects.Merge(next.effects)).core);
      }
    }
  }

  lemma GrowsSame(a: Log, term: Term)
    ensures Grows(a, a, term)
  {
  }

  // ----- Proposals -----

  /** The index was free and the next one; afterwards the entry there has the command and the
      term. What was before it is as it was, and what comes after it are configurations that the
      commit loop appended. */
  ghost predicate Placed(log: Log, log': Log, term: Term, index: LogIndex, command: Bytes) {
    && log.Get(index) == None && (index > 1 ==> log.Get(index - 1).Some? || index - 1 == log.snapshotIndex)
    && log'.(entries := log.entries) == log && log'.Contiguous()
    && log'.Get(index) == Some(Entry(term, index, Command(command)))
    && (forall i: LogIndex :: i < index ==> log'.Get(i) == log.Get(i))
    && (forall i: LogIndex :: i > index && log'.Get(i).Some? ==>
          log'.Get(i).value.payload.Config? && log'.Get(i).value.term == term)
  }

  lemma GrownPlaced(log: Log, log': Log, term: Term, command: Bytes)
    requires log.Contiguous() && log'.Contiguous()
    requires Grows(log.Append(Entry(term, log.LastIndex() + 1, Command(command))), log', term)
    ensures Placed(log, log', term, log.LastIndex() + 1, command)
  {
  }

  /** A proposal puts the command at the index that it names, is to be saved before it is sent,
      and changes nothing else but the commit index. */
  lemma ProposalPlaced(node: Node, command: Bytes)
    requires node.core.p.log.Contiguous() && Propose(node, command).Proposed?
    ensures var (r, log) := (Propose(node, command), node.core.p.log);
            && Placed(log, r.node.core.p.log, node.core.p.term, r.index, command)
            && r.effects.persist
            && r.node.core.WithLog(log).(commitIndex := node.core.commitIndex) == node.core
  {
    hide LeaderRole.MaybeCommit, LeaderRole.BroadcastAppend, LeaderState.MatchOf, Placed, Grows;
    var core, state := node.core, node.role.state;
    var core' := LeaderRole.AppendCommand(core, command);
    var moved := state.(matchIndex := state.matchIndex[core.id := core'.p.log.LastIndex()]);
    CommitGrows(core', state, NO_EFFECTS);
    CommitGrows(core', moved, NO_EFFECTS);
    Numbering.ProposalNumbered(node, command);
    GrownPlaced(core.p.log, Propose(node, command).node.core.p.log, core.p.term, command);
  }

  /** When nothing commits at once, every other member is served from the new log and nobody
      else is sent anything. */
  lemma ProposalSent(node: Node, command: Bytes)
    requires node.core.p.log.Contiguous() && Propose(node, command).Proposed?
    requires Propose(node, command).node.core.commitIndex == node.core.commitIndex
    ensures var r := Propose(node, command);
            var (core, own) := (r.node.core, node.role.state.matchIndex[node.core.id := r.index]);
            var counted := node.role.state.(matchIndex := own);
            var state := if node.core.opts.parallelDiskWrite then node.role.state else counted;
            && r.node.role.Leader?
            && core.p.log == node.core.p.log.Append(Entry(node.core.p.term, r.index, Command(command)))
            && H.Broadcasts(core, state, r.node.role.state, r.effects.(persist := false))
  {
    hide LeaderRole.BroadcastAppend, LeaderRole.ProcessCommitted, LeaderRole.HighestCommittable, H.Broadcasts;
    var core, state := node.core, node.role.state;
    var core' := LeaderRole.AppendCommand(core, command);
    var state' :=
      if core.opts.parallelDiskWrite then state
      else state.(matchIndex := state.matchIndex[core.id := core'.p.log.LastIndex()]);
    StillUncommitted(core', state');
    Numbering.AppendNumbered(core.p.log, Entry(core.Term(), core.p.log.LastIndex() + 1, Command(command)));
    H.BroadcastIs(core', state');
    var (state'', e) := LeaderRole.BroadcastAppend(core', state');
    H.BroadcastNotSaved(core', state', state'', e);
    assert e.WithPersist().Merge(NO_EFFECTS).(persist := false) == e;
  }

  lemma StillUncommitted(core: Core, state: LeaderState)
    requires LeaderRole.MaybeCommit(core, state).core.commitIndex == core.commitIndex
    ensures LeaderRole.MaybeCommit(core, state) == LeaderRole.CommitResult(core, state, NO_EFFECTS, false)
  {
    hide LeaderRole.ProcessCommitted, LeaderRole.JointsPast;
    CommitLoop.AdvanceExhausts(core, state);
    var advanced := LeaderRole.AdvanceCommit(core, state);
    hide LeaderRole.HighestCommittable;
    if advanced.commitIndex != core.commitIndex {
      var next := LeaderRole.ProcessCommitted(advanced, state, core.commitIndex + 1);
      if next.Continue? {
        CommitLoop.CommitMaximal(next.core, next.state, NO_EFFECTS.Merge(next.effects));
      }
    }
  }

  /** The bytes of the commands from `i` on. */
  function BytesFrom(log: Log, i: LogIndex): nat
    decreases log.LastIndex() + 1 - i
  {
    if i > log.LastIndex() then 0
    else
      BytesFrom(log, i + 1)
      + match log.Get(i)
        case Some(e) => if e.payload.Command? then |e.payload.bytes| else 0
        case None => 0
  }

  lemma {:induction false} BytesAhead(entries: seq<Entry>)
    requires entries != []
    ensures var size := if entries[0].payload.Command? then |entries[0].payload.bytes| else 0;
            CommandBytes(entries) == size + CommandBytes(entries[1..])
  {
    if |entries| > 1 {
      var init := entries[..|entries| - 1];
      BytesAhead(init);
      assert entries[1..][..|entries| - 2] == init[1..];
    } else {
      assert entries[1..] == [] == entries[..0];
    }
  }

  lemma {:induction false} BytesOf(log: Log, i: LogIndex)
    requires log.Contiguous() && log.snapshotIndex < i <= log.LastIndex() + 1
    ensures BytesFrom(log, i) == CommandBytes(log.entries[i - log.snapshotIndex - 1..])
    decreases log.LastIndex() + 1 - i
  {
    if i <= log.LastIndex() {
      var rest := log.entries[i - log.snapshotIndex - 1..];
      BytesAhead(rest);
      assert rest[1..] == log.entries[i - log.snapshotIndex..];
      BytesOf(log, i + 1);
    }
  }

  lemma SliceFrom(log: Log, i: LogIndex, j: LogIndex)
    ensures log.Slice(i, j) == log.Slice(Max(i, log.snapshotIndex + 1), j)
  {
  }

  lemma Pending(log: Log, base: LogIndex)
    requires log.Contiguous() && log.snapshotIndex <= base <= log.LastIndex()
    ensures var pending := log.Slice(base + 1, log.LastIndex());
            && |pending| == log.LastIndex() - base
            && CommandBytes(pending) == BytesFrom(log, base + 1)
  {
    hide CommandBytes, BytesFrom, Log.Slice;
    SliceForm(log, base + 1, log.LastIndex());
    BytesOf(log, base + 1);
    var rest := log.entries[base - log.snapshotIndex..];
    assert log.Slice(base + 1, log.LastIndex()) == rest;
  }

  lemma LimitIs(core: Core, command: Bytes)
    requires core.p.log.Contiguous() && core.commitIndex <= core.p.log.LastIndex()
    ensures var base := Max(core.commitIndex, core.p.log.snapshotIndex);
            core.ProposalLimitExceeded(command) <==>
            || core.p.log.LastIndex() - base >= core.opts.maxUncommittedEntries
            || BytesFrom(core.p.log, base + 1) + |command| > core.opts.maxUncommittedBytes
  {
    hide CommandBytes, BytesFrom, Log.Slice, Log.LastIndex, Log.Contiguous;
    LogRules.EntriesAt(core.p.log, 0);
    SliceFrom(core.p.log, core.commitIndex + 1, core.p.log.LastIndex());
    Pending(core.p.log, Max(core.commitIndex, core.p.log.snapshotIndex));
  }

  /** Only a leader takes a proposal; one that is not says whom it follows. It takes it exactly
      if fewer entries than the limit are uncommitted, of those the log still has, and their
      bytes and the command's together are within the limit. */
  lemma ProposalIff(node: Node, command: Bytes)
    requires node.core.p.log.Contiguous()
    ensures var (r, core, log) := (Propose(node, command), node.core, node.core.p.log);
            var base := Max(core.commitIndex, log.snapshotIndex);
            && (!node.role.Leader? ==> r == NotLeader(if node.role.Follower? then node.role.leader else None))
            && (node.role.Leader? ==>
                  && (r.Panicked? <==> core.commitIndex > log.LastIndex())
                  && (r.Proposed? <==>
                        && base <= log.LastIndex() < base + core.opts.maxUncommittedEntries
                        && BytesFrom(log, base + 1) + |command| <= core.opts.maxUncommittedBytes)
                  && !r.NotLeader?)
  {
    hide LeaderRole.Propose, BytesFrom, Log.LastIndex, Log.Contiguous, Core.ProposalLimitExceeded;
    LogRules.EntriesAt(node.core.p.log, 0);
    if node.core.commitIndex <= node.core.p.log.LastIndex() {
      LimitIs(node.core, command);
    }
  }
}
