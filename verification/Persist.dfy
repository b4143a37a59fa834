/** Persist soundness: whatever the node does, if its effects do not ask for persistence then
    the term, the vote and the log are what they were (consensus/basisdb-raft/src/raft/mod.rs). */
module Persist {
  import opened Types
  import opened Event
  import opened RaftCore
  import FollowerRole
  import PreCandidateRole
  import CandidateRole
  import LeaderRole
  import Merging
  import opened RaftNode

  ghost predicate NoSnapshot(core: Core) {
    core.p.log.snapshotIndex == 0 && core.p.log.Contiguous()
  }

  /** The outcome keeps the persistent state, or asks to write it. */
  ghost predicate Covered(before: Core, after: Core, effects: Effects) {
    effects.persist || after.p == before.p
  }

  lemma FollowerCovered(core: Core, role: Role, event: Event)
    requires role.Follower? && NoSnapshot(core)
    ensures var r := FollowerRole.Step(core, role, event); Covered(core, r.core, r.effects)
  {
    hide FollowerRole.Merge, FollowerRole.MergePersists;
    if event.Receive? && event.message.body.AppendRequest? {
      var entries := event.message.body.entries;
      var log := core.MaybeUpdateTerm(event.message.term).p.log;
      if !FollowerRole.MergePersists(log, entries) {
        Merging.UnpersistedMerge(log, entries);
      }
    }
  }

  lemma PreCandidateCovered(core: Core, role: Role, event: Event)
    requires role.PreCandidate?
    ensures var r := PreCandidateRole.Step(core, role, event); Covered(core, r.core, r.effects)
  {
  }

  lemma CandidateCovered(core: Core, role: Role, event: Event)
    requires role.Candidate?
    ensures var r := CandidateRole.Step(core, role, event); Covered(core, r.core, r.effects)
  {
  }

  lemma ProcessCovered(core: Core, state: LeaderState, index: LogIndex)
    requires index > 0
    ensures var r := LeaderRole.ProcessCommitted(core, state, index); r.Continue? ==> r.effects.persist
    decreases core.commitIndex + 1 - index
  {
    if index <= core.commitIndex {
      ProcessCovered(core, state, index + 1);
    }
  }

  /** The commit loop appends only when it completes a joint configuration, and then persists. */
  lemma {:induction false} MaybeCommitCovered(core: Core, state: LeaderState, effects: Effects)
    ensures var r := LeaderRole.MaybeCommit(core, state, effects);
            (effects.persist ==> r.effects.persist) && Covered(core, r.core, r.effects)
    decreases LeaderRole.JointsPast(core.p.log, core.commitIndex)
  {
    hide LeaderRole.HighestCommittable, LeaderRole.JointsPast;
    var advanced := LeaderRole.AdvanceCommit(core, state);
    if advanced.commitIndex != core.commitIndex {
      ProcessCovered(advanced, state, core.commitIndex + 1);
      var next := LeaderRole.ProcessCommitted(advanced, state, core.commitIndex + 1);
      hide LeaderRole.ProcessCommitted;
      if next.Continue? {
        MaybeCommitCovered(next.core, next.state, effects.Merge(next.effects));
      }
    }
  }

  lemma LeaderCovered(core: Core, role: Role, event: Event)
    requires role.Leader?
    ensures var r := LeaderRole.Step(core, role, event); Covered(core, r.core, r.effects)
  {
    hide LeaderRole.MaybeCommit, LeaderRole.SendAppendTo, LeaderRole.BroadcastAppend;
    var state := role.state;
    match event
    case Tick(_) =>
    case DiskWriteComplete(index) =>
      MaybeCommitCovered(core, state.(matchIndex := state.matchIndex[core.id := index]), NO_EFFECTS);
    case Receive(m, _) =>
      if m.body.AppendResponse? && m.body.success {
        var acked := state.(matchIndex := state.matchIndex[m.from := m.body.ackLastIndex]);
        MaybeCommitCovered(core, acked, NO_EFFECTS);
        MaybeCommitCovered(core, acked.(nextIndex := acked.nextIndex[m.from := m.body.ackLastIndex + 1]), NO_EFFECTS);
      }
  }

  lemma TransitionCovered(core: Core, role: Role, transition: Transition)
    ensures var (node, effects) := ApplyTransition(core, role, transition); Covered(core, node.core, effects)
  {
    hide LeaderRole.BroadcastAppend;
  }

  /** Every tick, message and disk signal, through every chained role change. */
  lemma EventCovered(node: Node, event: Event)
    requires NoSnapshot(node.core)
    ensures var (node', effects) := StepEvent(node, event); Covered(node.core, node'.core, effects)
  {
    hide FollowerRole.Step, PreCandidateRole.Step, CandidateRole.Step, LeaderRole.Step, ApplyTransition;
    match node.role {
      case Follower(_) => FollowerCovered(node.core, node.role, event);
      case PreCandidate(_) => PreCandidateCovered(node.core, node.role, event);
      case Candidate(_) => CandidateCovered(node.core, node.role, event);
      case Leader(_) => LeaderCovered(node.core, node.role, event);
    }
    var r := RoleStep(node, event);
    TransitionCovered(r.core, r.role, r.transition);
    StayKeeps(r.core, r.role);
  }

  lemma StayKeeps(core: Core, role: Role)
    ensures ApplyTransition(core, role, Stay) == (Node(core, role), NO_EFFECTS)
  {
  }

  /** A proposal always asks for persistence. */
  lemma ProposalCovered(node: Node, command: Bytes)
    requires Propose(node, command).Proposed?
    ensures Propose(node, command).effects.persist
  {
    hide LeaderRole.MaybeCommit, LeaderRole.BroadcastAppend;
  }
}
