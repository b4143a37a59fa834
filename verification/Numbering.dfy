/** A node keeps its log numbered without gaps, if the requests it merges do. */
module Numbering {
  import opened Types
  import opened Membership
  import opened RaftLog
  import opened Event
  import opened RaftCore
  import FollowerRole
  import LeaderRole
  import opened RaftNode

  /** What the source takes for granted of an append request that passes the consistency
      check: its entries go on where the log ends or agree with what is there. */
  ghost predicate Fits(node: Node, m: Message) {
    && node.role.Follower? && m.body.AppendRequest? && m.term >= node.core.p.term
    && FollowerRole.PrevMatches(node.core.p.log, m.body)
    ==> FollowerRole.Merge(node.core.p.log, m.body.entries).Contiguous()
  }

  lemma AppendNumbered(log: Log, entry: Entry)
    requires log.Contiguous() && entry.index == log.LastIndex() + 1
    ensures log.Append(entry).Contiguous()
  {
  }

  lemma TargetNumbered(core: Core, state: LeaderState, target: Configuration)
    requires core.p.log.Contiguous()
    ensures LeaderRole.AppendTarget(core, state, target).0.p.log.Contiguous()
  {
    hide LeaderRole.BroadcastAppend, LeaderRole.ReinitProgress;
    AppendNumbered(core.p.log, Entry(core.Term(), core.p.log.LastIndex() + 1, Config(target)));
  }

  lemma {:induction false} ProcessNumbered(core: Core, state: LeaderState, index: LogIndex)
    requires index > 0 && core.p.log.Contiguous()
    ensures var r := LeaderRole.ProcessCommitted(core, state, index); r.Continue? ==> r.core.p.log.Contiguous()
    decreases core.commitIndex + 1 - index
  {
    hide LeaderRole.AppendTarget, LeaderRole.AutoTransfer, LeaderRole.JointsPast;
    if index <= core.commitIndex {
      ProcessNumbered(core, state, index + 1);
      var entry := core.p.log.Get(index);
      if entry.Some? && entry.value.payload.Config? && entry.value.payload.config.Joint? {
        TargetNumbered(core, state, entry.value.payload.config.TransitionTarget().value);
      }
    }
  }

  lemma {:induction false} MaybeCommitNumbered(core: Core, state: LeaderState, effects: Effects)
    requires core.p.log.Contiguous()
    ensures LeaderRole.MaybeCommit(core, state, effects).core.p.log.Contiguous()
    decreases LeaderRole.JointsPast(core.p.log, core.commitIndex)
  {
    hide LeaderRole.HighestCommittable, LeaderRole.JointsPast;
    var advanced := LeaderRole.AdvanceCommit(core, state);
    if advanced.commitIndex != core.commitIndex {
      ProcessNumbered(advanced, state, core.commitIndex + 1);
      var next := LeaderRole.ProcessCommitted(advanced, state, core.commitIndex + 1);
      hide LeaderRole.ProcessCommitted;
      if next.Continue? {
        MaybeCommitNumbered(next.core, next.state, effects.Merge(next.effects));
      }
    }
  }

  lemma LeaderNumbered(core: Core, role: Role, event: Event)
    requires role.Leader? && core.p.log.Contiguous()
    ensures LeaderRole.Step(core, role, event).core.p.log.Contiguous()
  {
    hide LeaderRole.MaybeCommit, LeaderRole.SendAppendTo, LeaderRole.BroadcastAppend;
    var state := role.state;
    match event
    case Tick(_) =>
    case DiskWriteComplete(index) =>
      MaybeCommitNumbered(core, state.(matchIndex := state.matchIndex[core.id := index]), NO_EFFECTS);
    case Receive(m, _) =>
      if m.body.AppendResponse? && m.body.success {
        var acked := state.(matchIndex := state.matchIndex[m.from := m.body.ackLastIndex]);
        MaybeCommitNumbered(core, acked, NO_EFFECTS);
        MaybeCommitNumbered(core, acked.(nextIndex := acked.nextIndex[m.from := m.body.ackLastIndex + 1]), NO_EFFECTS);
      }
  }

  lemma FollowerNumbered(core: Core, role: Role, event: Event)
    requires role.Follower? && core.p.log.Contiguous()
    requires event.Receive? ==> Fits(Node(core, role), event.message)
    ensures FollowerRole.Step(core, role, event).core.p.log.Contiguous()
  {
    hide FollowerRole.Merge, FollowerRole.MergePersists;
  }

  lemma RoleNumbered(node: Node, event: Event)
    requires node.core.p.log.Contiguous() && (event.Receive? ==> Fits(node, event.message))
    ensures RoleStep(node, event).core.p.log.Contiguous()
  {
    hide LeaderRole.Step, FollowerRole.Step, FollowerRole.Merge;
    match node.role
    case Leader(_) => LeaderNumbered(node.core, node.role, event);
    case Follower(_) => FollowerNumbered(node.core, node.role, event);
    case _ =>
  }

  lemma TransitionKeepsLog(core: Core, role: Role, transition: Transition)
    ensures ApplyTransition(core, role, transition).0.core.p.log == core.p.log
  {
    hide LeaderRole.BroadcastAppend;
  }

  /** Whatever happens, a numbered log stays numbered. */
  lemma EventNumbered(node: Node, event: Event)
    requires node.core.p.log.Contiguous() && (event.Receive? ==> Fits(node, event.message))
    ensures StepEvent(node, event).0.core.p.log.Contiguous()
  {
    hide RoleStep, ApplyTransition, Fits;
    RoleNumbered(node, event);
    var r := RoleStep(node, event);
    TransitionKeepsLog(r.core, r.role, r.transition);
  }

  lemma ProposalNumbered(node: Node, command: Bytes)
    requires node.core.p.log.Contiguous() && Propose(node, command).Proposed?
    ensures Propose(node, command).node.core.p.log.Contiguous()
  {
    hide LeaderRole.MaybeCommit, LeaderRole.BroadcastAppend;
    var core, state := node.core, node.role.state;
    var core' := LeaderRole.AppendCommand(core, command);
    AppendNumbered(core.p.log, Entry(core.Term(), core.p.log.LastIndex() + 1, Command(command)));
    MaybeCommitNumbered(core', state, NO_EFFECTS);
    MaybeCommitNumbered(core', state.(matchIndex := state.matchIndex[core.id := core'.p.log.LastIndex()]), NO_EFFECTS);
  }
}
