/** Exactly when a commit index stays within its log, which every proposal asserts. */
module CommitBound {
  import opened Types
  import opened RaftLog
  import opened Event
  import opened RaftCore
  import FollowerRole
  import LeaderRole
  import opened RaftNode
  import opened Refinement
  import opened RefineRoles
  import opened Merging
  import opened RefineLeader
  import opened RefineStep
  import opened Cluster
  import opened Safety
  import Theorems
  import H = History

  predicate Within(core: Core) {
    core.commitIndex <= core.p.log.LastIndex()
  }

  /** The event does not cut the log below the commit index, or names a later commit index, so
      that this one is set anew. */
  predicate Spares(node: Node, event: Event) {
    || KeepsCommit(node, event)
    || (event.Receive? && event.message.body.AppendRequest?
        && event.message.body.leaderCommit > node.core.commitIndex)
  }

  /** What an event makes of a commit index within the log: it stays within if and only if the
      event spares it, and does not fall either if and only if nothing is cut below it. */
  ghost predicate StaysIff(node: Node, event: Event, core: Core) {
    && (Within(core) <==> Spares(node, event))
    && (node.core.commitIndex <= core.commitIndex && Within(core) <==> KeepsCommit(node, event))
  }

  lemma FollowerStays(core: Core, role: Role, event: Event)
    requires role.Follower? && Within(core)
    ensures StaysIff(Node(core, role), event, FollowerRole.Step(core, role, event).core)
  {
    hide FollowerRole.Merge, FollowerRole.MergePersists, Log.LastIndex, FollowerRole.PrevMatches;
  }

  lemma LeaderStays(voters: set<NodeId>, core: Core, role: Role, event: Event)
    requires CoreOk(voters, core) && role.Leader? && !event.DiskWriteComplete? && Within(core)
    ensures StaysIff(Node(core, role), event, LeaderRole.Step(core, role, event).core)
  {
    hide LeaderRole.MaybeCommit, LeaderRole.AdvanceCommit, LeaderRole.SendAppendTo, LeaderRole.BroadcastAppend, CoreOk;
    LeaderBounded(voters, core, role, event);
    LeaderOnward(core, role, event);
    LeaderKeepsLog(voters, core, role, event);
  }

  lemma LeaderKeepsLog(voters: set<NodeId>, core: Core, role: Role, event: Event)
    requires CoreOk(voters, core) && role.Leader? && !event.DiskWriteComplete?
    ensures LeaderRole.Step(core, role, event).core.p.log == core.p.log
  {
    hide LeaderRole.MaybeCommit, LeaderRole.HighestCommittable, LeaderRole.SendAppendTo, LeaderRole.BroadcastAppend,
        CoreOk;
    if event.Receive? && event.message.body.AppendResponse? && event.message.body.success {
      var m, state := event.message, role.state;
      var acked := state.(matchIndex := state.matchIndex[m.from := m.body.ackLastIndex]);
      MaybeCommitPlain(voters, core, acked);
      MaybeCommitPlain(voters, core, acked.(nextIndex := acked.nextIndex[m.from := m.body.ackLastIndex + 1]));
    }
  }

  lemma RoleStays(voters: set<NodeId>, node: Node, event: Event)
    requires NodeOk(voters, node) && !event.DiskWriteComplete? && Within(node.core)
    ensures StaysIff(node, event, RoleStep(node, event).core)
  {
    hide LeaderRole.Step, FollowerRole.Step, CoreOk, FollowerRole.Merge, Log.LastIndex;
    match node.role
    case Leader(_) => LeaderStays(voters, node.core, node.role, event);
    case Follower(_) => FollowerStays(node.core, node.role, event);
    case _ =>
  }

  lemma EventStays(voters: set<NodeId>, node: Node, event: Event)
    requires NodeOk(voters, node) && !event.DiskWriteComplete? && Within(node.core)
    ensures StaysIff(node, event, StepEvent(node, event).0.core)
  {
    hide RoleStep, ApplyTransition, Spares, KeepsCommit, NodeOk;
    RoleStays(voters, node, event);
    var r := RoleStep(node, event);
    TransitionStill(r.core, r.role, r.transition);
  }

  lemma ProposalStays(voters: set<NodeId>, node: Node, command: Bytes)
    requires NodeOk(voters, node) && Propose(node, command).Proposed?
    ensures Within(Propose(node, command).node.core)
  {
    hide LeaderRole.MaybeCommit, LeaderRole.HighestCommittable, LeaderRole.BroadcastAppend, Refined;
    var core, state := node.core, node.role.state;
    var core' := LeaderRole.AppendCommand(core, command);
    var state' := state.(matchIndex := state.matchIndex[core.id := core'.p.log.LastIndex()]);
    ProposeStepRefined(None, voters, {}, core, state, command);
    PlainQueries(core.p.log);
    PlainQueries(core'.p.log);
    MaybeCommitPlain(voters, core', state');
    AdvanceBounded(core', state');
  }

  /** The step delivers nothing, or something that spares the commit index. */
  predicate SparingStep(node: Node, step: Step) {
    step.DeliverStep? ==> Spares(node, Receive(step.m, step.recent))
  }

  lemma StepStays(c: ClusterState, i: NodeId, step: Step)
    requires Possible(c, i, step) && ClusterOk(c) && Within(c.machines[i].node.core)
    requires NodeStep(c, i, step).1.sendSnapshots == []
    ensures i in Do(c, i, step).machines
    ensures Within(Do(c, i, step).machines[i].node.core) <==> SparingStep(c.machines[i].node, step)
  {
    hide StepEvent, Propose, RequestReadIndex, TransferLeadership, NodeOk, Do, Spares, Msgs;
    var node := c.machines[i].node;
    assert MachineOk(c.voters, i, c.machines[i]);
    var (node', effects) := NodeStep(c, i, step);
    DoShape(c, i, step, node', effects);
    match step
    case TickStep(expired) =>
      EventStays(c.voters, node, Tick(expired));
      TickSpares(node, expired);
    case DeliverStep(m, recent) => EventStays(c.voters, node, Receive(m, recent));
    case ProposeStep(command) => ProposalStays(c.voters, node, command);
    case CrashStep => CrashNode(c, i);
    case _ =>
  }

  lemma TickSpares(node: Node, expired: bool)
    ensures Spares(node, Tick(expired))
  {
  }

  /** At every time, at every server. */
  ghost predicate AlwaysWithin(run: Run) {
    forall k, i :: 0 <= k < |run.states| && i in run.states[k].machines ==> Within(run.states[k].machines[i].node.core)
  }

  ghost predicate AlwaysSpared(run: Run)
    requires IsRun(run)
  {
    forall k :: 0 <= k < |run.moves| ==> SparedAt(run, k)
  }

  ghost predicate SparedAt(run: Run, k: nat)
    requires IsRun(run) && k < |run.moves|
  {
    SparingStep(run.states[k].machines[run.moves[k].who].node, run.moves[k].step)
  }

  /** In every run: every commit index is within its log at all times if and only if every
      request delivered spares it. */
  lemma WithinIff(run: Run)
    requires IsRun(run)
    ensures AlwaysWithin(run) <==> AlwaysSpared(run)
  {
    hide Do, Possible, Within, SparingStep;
    if AlwaysSpared(run) {
      forall k, i | 0 <= k < |run.states| && i in run.states[k].machines
        ensures Within(run.states[k].machines[i].node.core)
      {
        SparedWithin(run, k, i);
      }
    } else {
      var k :| 0 <= k < |run.moves| && !SparedAt(run, k);
      MoveStays(run, k);
    }
  }

  lemma {:induction false} SparedWithin(run: Run, k: nat, i: NodeId)
    requires IsRun(run) && AlwaysSpared(run) && k < |run.states| && i in run.states[k].machines
    ensures Within(run.states[k].machines[i].node.core)
  {
    hide Do, Possible, Within, SparingStep, Initial;
    if k == 0 {
      StartsWithin(run.states[0], i);
    } else {
      MoveStays(run, k - 1);
      assert SparedAt(run, k - 1);
      SparedWithin(run, k - 1, run.moves[k - 1].who);
      if i != run.moves[k - 1].who {
        SparedWithin(run, k - 1, i);
      }
    }
  }

  lemma StartsWithin(c: ClusterState, i: NodeId)
    requires Initial(c) && i in c.machines
    ensures Within(c.machines[i].node.core)
  {
  }

  lemma NoSnapshots(c: ClusterState, h: H.History, i: NodeId, step: Step)
    requires Possible(c, i, step) && Tracks(false, c, h)
    ensures ClusterOk(c) && NodeStep(c, i, step).1.sendSnapshots == []
  {
    hide NodeStep, HonestStep;
    LaxStep(c, i, step);
    NodeStepRefined(None, c, h, i, step);
  }

  /** One move of a run: the commit index of the server that moves stays within if and only if
      it is spared, and the other servers are as they were. */
  lemma MoveStays(run: Run, k: nat)
    requires IsRun(run) && k < |run.moves|
    ensures var who, c, c' := run.moves[k].who, run.states[k], run.states[k + 1];
            && who in c.machines && c'.machines.Keys == c.machines.Keys
            && (Within(c.machines[who].node.core) ==> (Within(c'.machines[who].node.core) <==> SparedAt(run, k)))
            && forall j :: j in c.machines && j != who ==> c'.machines[j] == c.machines[j]
  {
    hide Within, SparingStep, Tracks, H.Extends, Do;
    var hs := Theorems.RunWitness(false, run);
    var who, step, c := run.moves[k].who, run.moves[k].step, run.states[k];
    NoSnapshots(c, hs[k], who, step);
    var (node', effects) := NodeStep(c, who, step);
    DoShape(c, who, step, node', effects);
    if Within(c.machines[who].node.core) {
      StepStays(c, who, step);
    }
  }
}
