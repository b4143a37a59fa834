/** The leader's commit loop (consensus/basisdb-raft/src/raft/leader.rs): it terminates, as
    its measure shows, and leaves nothing committable behind. */
module CommitLoop {
  import opened Types
  import opened Event
  import opened RaftCore
  import LeaderRole

  /** The commit search returns the old index or one that a quorum is believed to hold, and
      nothing above it qualifies. */
  lemma {:induction false} HighestIs(core: Core, state: LeaderState, from: LogIndex)
    ensures var c := LeaderRole.HighestCommittable(core, state, from);
            && c >= core.commitIndex
            && (c == core.commitIndex || (core.commitIndex < c <= from && LeaderRole.Committable(core, state, c)))
            && (forall j :: c < j <= from ==> !LeaderRole.Committable(core, state, j))
  {
    hide LeaderRole.Committable;
    if from > core.commitIndex && !LeaderRole.Committable(core, state, from) {
      HighestIs(core, state, from - 1);
    }
  }

  /** The effective configuration, and so what is committable, does not depend on the commit
      index. */
  lemma CommittableAfter(core: Core, state: LeaderState, commit: LogIndex, index: LogIndex)
    ensures LeaderRole.Committable(core.(commitIndex := commit), state, index)
        == LeaderRole.Committable(core, state, index)
  {
    assert LeaderRole.Matched(core.(commitIndex := commit), state, index) == LeaderRole.Matched(core, state, index);
  }

  /** Nothing past the commit index is committable. */
  ghost predicate Exhausted(core: Core, state: LeaderState) {
    forall j :: core.commitIndex < j <= core.p.log.LastIndex() ==> !LeaderRole.Committable(core, state, j)
  }

  lemma AdvanceExhausts(core: Core, state: LeaderState)
    ensures Exhausted(LeaderRole.AdvanceCommit(core, state), state)
    ensures LeaderRole.AdvanceCommit(core, state).commitIndex >= core.commitIndex
  {
    hide LeaderRole.HighestCommittable, LeaderRole.Committable;
    var last := core.p.log.LastIndex();
    HighestIs(core, state, last);
    var c := LeaderRole.HighestCommittable(core, state, last);
    forall j | c < j <= last ensures !LeaderRole.Committable(core.(commitIndex := c), state, j) {
      CommittableAfter(core, state, c, j);
    }
  }

  /** The configuration at `index` was committed by this loop and excludes this server. */
  ghost predicate Excludes(core: Core, index: LogIndex) {
    var entry := core.p.log.Get(index);
    entry.Some? && entry.value.payload.Config? && !entry.value.payload.config.IsVoter(core.id)
  }

  lemma {:induction false} StepDownMeans(core: Core, state: LeaderState, index: LogIndex)
    requires index > 0 && LeaderRole.ProcessCommitted(core, state, index).StepDown?
    ensures exists k :: index <= k <= core.commitIndex && Excludes(core, k)
    decreases core.commitIndex + 1 - index
  {
    hide LeaderRole.AutoTransfer, LeaderRole.AppendTarget;
    if !Excludes(core, index) {
      StepDownMeans(core, state, index + 1);
      var k :| index + 1 <= k <= core.commitIndex && Excludes(core, k);
      assert index <= k;
    }
  }

  /** When the loop ends without stepping down, no later index of the current term has a
      quorum in the configuration in force; when it does step down, a configuration without
      this server has been committed. */
  lemma {:induction false} CommitMaximal(core: Core, state: LeaderState, effects: Effects)
    ensures var r := LeaderRole.MaybeCommit(core, state, effects);
            && core.commitIndex <= r.core.commitIndex
            && (!r.stepDown ==> Exhausted(r.core, r.state))
            && (r.stepDown ==> exists k :: core.commitIndex < k <= r.core.commitIndex && Excludes(r.core, k))
    decreases LeaderRole.JointsPast(core.p.log, core.commitIndex)
  {
    hide LeaderRole.AdvanceCommit, LeaderRole.JointsPast, Exhausted, Excludes;
    AdvanceExhausts(core, state);
    var advanced := LeaderRole.AdvanceCommit(core, state);
    if advanced.commitIndex != core.commitIndex {
      AdvanceKeepsLog(core, state);
      var next := LeaderRole.ProcessCommitted(advanced, state, core.commitIndex + 1);
      if next.StepDown? {
        StepDownMeans(advanced, state, core.commitIndex + 1);
      }
      hide LeaderRole.ProcessCommitted;
      if next.Continue? {
        CommitMaximal(next.core, next.state, effects.Merge(next.effects));
      }
    } else {
      AdvanceKeepsLog(core, state);
    }
  }

  lemma AdvanceKeepsLog(core: Core, state: LeaderState)
    ensures LeaderRole.AdvanceCommit(core, state)
        == core.(commitIndex := LeaderRole.AdvanceCommit(core, state).commitIndex)
  {
  }
}
