/** Read rounds as one node sees them (consensus/basisdb-raft/src/raft/leader.rs, follower.rs). */
module ReadRounds {
  import opened Types
  import opened Membership
  import opened RaftLog
  import opened Event
  import opened RaftCore
  import FollowerRole
  import PreCandidateRole
  import CandidateRole
  import LeaderRole
  import opened RaftNode
  import opened Refinement
  import opened RefineRoles
  import opened RefineStep
  import opened RefineLeader

  /** A follower that has moved on answers a read request of an older term under its own,
      and a leader of that newer term with a round of the same numbers counts the answer. */
  lemma StaleAnswerCounts(core: Core, role: Role, request: Message, recent: bool, leader: Core, state: LeaderState)
    requires role.Follower? && request.body.ReadIndexRequest? && request.term < core.p.term
    requires leader.id == request.from && leader.p.term == core.p.term && state.pendingRead.Some?
    requires state.pendingRead.value.configuration.IsVoter(core.id)
    requires state.pendingRead.value.id == request.body.readId
    requires state.pendingRead.value.readIndex == request.body.readIndex
    ensures var answers := FollowerRole.HandleMessage(core, role, request, recent).effects.messages;
            && |answers| == 1 && answers[0].to == leader.id
            && var state' := LeaderRole.HandleMessage(leader, state, answers[0]).role.state;
               state'.pendingRead.None? || core.id in state'.pendingRead.value.acks
  {
  }

  // ----- Only a request numbers a round -----

  /** A leader's round numbers after a step other than a request: as before, or from the
      beginning if it has only just begun to lead. */
  ghost predicate NumbersKept(node: Node, node': Node) {
    node'.role.Leader? ==>
      || node'.role.state.nextReadId == 1
      || (&& node.role.Leader? && node.core.p.term == node'.core.p.term
          && node.role.state.nextReadId == node'.role.state.nextReadId)
  }

  lemma BroadcastKeepsNumbers(voters: set<NodeId>, core: Core, state: LeaderState)
    requires CoreOk(voters, core) && RoleOk(voters, Leader(state))
    ensures LeaderRole.BroadcastAppend(core, state).0.nextReadId == state.nextReadId
  {
    hide LeaderRole.SendToFirst;
    var peers := Without(core.EffectiveConfig().AllNodes(), core.id);
    SendManyRefined(voters, core, state, peers, |peers|, Leader(state));
  }

  lemma LeaderStepKeepsNumbers(voters: set<NodeId>, node: Node, event: Event)
    requires NodeOk(voters, node) && node.role.Leader? && !event.DiskWriteComplete?
    ensures var r := RoleStep(node, event);
            && (r.transition.Stay? || r.transition.ToFollower?)
            && (r.transition.Stay? ==>
                  && r.role.Leader? && r.core.p.term == node.core.p.term
                  && r.role.state.nextReadId == node.role.state.nextReadId)
  {
    hide CoreOk, RoleOk, LeaderRole.MaybeCommit, LeaderRole.SendAppendTo, LeaderRole.BroadcastAppend;
    hide LeaderRole.AdvanceCommit, LeaderRole.ReadRequests, LatestConfig;
    var core, state := node.core, node.role.state;
    match event
    case Tick(_) => BroadcastKeepsNumbers(voters, core, state);
    case Receive(m, _) =>
      if m.body.AppendResponse? {
        if m.body.success {
          var acked := state.(matchIndex := state.matchIndex[m.from := m.body.ackLastIndex]);
          var moved := acked.(nextIndex := acked.nextIndex[m.from := m.body.ackLastIndex + 1]);
          MaybeCommitPlain(voters, core, acked);
          MaybeCommitPlain(voters, core, moved);
          AdvanceKeepsTerm(core, acked);
          AdvanceKeepsTerm(core, moved);
        } else {
          RetryKeepsNumbers(voters, core, state, m);
        }
      }
  }

  lemma AdvanceKeepsTerm(core: Core, state: LeaderState)
    ensures LeaderRole.AdvanceCommit(core, state).p == core.p
  {
    hide LeaderRole.HighestCommittable;
  }

  lemma RetryKeepsNumbers(voters: set<NodeId>, core: Core, state: LeaderState, m: Message)
    requires CoreOk(voters, core) && RoleOk(voters, Leader(state)) && m.body.AppendResponse? && !m.body.success
    ensures var r := LeaderRole.HandleAppendResponse(core, state, m.from, m.body);
            r.role.Leader? && r.core == core && r.transition.Stay? && r.role.state.nextReadId == state.nextReadId
  {
    hide CoreOk, LeaderRole.SendAppendTo, LatestConfig;
    var hinted := m.body.ackLastIndex + 1;
    var next := if core.opts.pipelining then Max(hinted, state.MatchOf(m.from) + 1) else hinted;
    RetryOk(voters, state, m.from, next);
    SendRefined(voters, core, state.(nextIndex := state.nextIndex[m.from := next]), m.from, Leader(state));
  }

  /** Whoever begins to lead numbers its rounds from 1. */
  lemma LeadKeepsNumbers(voters: set<NodeId>, core: Core)
    requires CoreOk(voters, core)
    ensures BecomeLeader(core).0.role.state.nextReadId == 1
  {
    hide LeaderRole.BroadcastAppend, CoreOk;
    BroadcastKeepsNumbers(voters, core, LeaderRole.Start(core));
  }

  lemma TransitionKeepsNumbers(voters: set<NodeId>, node: Node, core: Core, role: Role, transition: Transition)
    requires CoreOk(voters, core) && !transition.Stay?
    ensures NumbersKept(node, ApplyTransition(core, role, transition).0)
  {
    hide BecomeLeader, CandidateRole.New, PreCandidateRole.New, PreCandidateRole.HasQuorum, CandidateRole.HasQuorum;
    var (core', role', _) := CandidateRole.New(core);
    CampaignShape(voters, core);
    LeadKeepsNumbers(voters, core);
    LeadKeepsNumbers(voters, core');
    FirstRoles(core);
  }

  lemma FirstRoles(core: Core)
    ensures CandidateRole.New(core).1.Candidate? && PreCandidateRole.New(core).0.PreCandidate?
  {
  }

  lemma EventKeepsNumbers(voters: set<NodeId>, node: Node, event: Event)
    requires NodeOk(voters, node) && !event.DiskWriteComplete?
    ensures NumbersKept(node, StepEvent(node, event).0)
  {
    hide CoreOk, ApplyTransition, LeaderRole.Step, FollowerRole.Step, CandidateRole.Step, PreCandidateRole.Step;
    var r := RoleStep(node, event);
    if node.role.Leader? {
      LeaderStepKeepsNumbers(voters, node, event);
      RoleChanges(r.core, r.role, r.transition);
    } else {
      OthersFollow(voters, node, event);
      RoleChanges(r.core, r.role, r.transition);
      if !r.transition.Stay? {
        TransitionKeepsNumbers(voters, node, r.core, r.role, r.transition);
      }
    }
  }

  lemma RoleChanges(core: Core, role: Role, transition: Transition)
    ensures transition.Stay? ==> ApplyTransition(core, role, transition).0 == Node(core, role)
    ensures transition.ToFollower? ==> ApplyTransition(core, role, transition).0.role.Follower?
  {
  }

  /** A server that does not lead leads, if at all, by a role change, which leaves its log. */
  lemma OthersFollow(voters: set<NodeId>, node: Node, event: Event)
    requires NodeOk(voters, node) && !node.role.Leader?
    ensures var r := RoleStep(node, event);
            !r.role.Leader? && (!r.transition.Stay? ==> CoreOk(voters, r.core))
  {
    hide FollowerRole.HandleAppend, FollowerRole.HandleVote, PreCandidateRole.HasQuorum, CandidateRole.HasQuorum;
    if event.Receive? {
      AppendStays(node.core.MaybeUpdateTerm(event.message.term), event.message);
      HandlersFollow(node.core.MaybeUpdateTerm(event.message.term), node.role, event.message);
    }
  }

  lemma HandlersFollow(core: Core, role: Role, m: Message)
    ensures m.body.AppendRequest? ==> FollowerRole.HandleAppend(core, m.from, m.body).role.Follower?
    ensures forall role :: m.body.VoteRequest? ==> FollowerRole.HandleVote(core, role, m.from, m.body).role == role
  {
  }

  lemma ProposalKeepsNumbers(voters: set<NodeId>, node: Node, command: Bytes)
    requires NodeOk(voters, node) && Propose(node, command).Proposed?
    ensures NumbersKept(node, Propose(node, command).node)
  {
    hide LeaderRole.MaybeCommit, LeaderRole.AdvanceCommit, LeaderRole.BroadcastAppend, Refined;
    var core, state := node.core, node.role.state;
    var core' := LeaderRole.AppendCommand(core, command);
    var state' := state.(matchIndex := state.matchIndex[core.id := core'.p.log.LastIndex()]);
    ProposeStepRefined(None, voters, {}, core, state, command);
    MaybeCommitPlain(voters, core', state');
    AdvanceKeepsTerm(core', state');
    CommitKeepsCore(voters, core', state');
    BroadcastKeepsNumbers(voters, LeaderRole.AdvanceCommit(core', state'), state');
  }
}
