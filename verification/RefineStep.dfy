/** Whole events and client requests, as chains of protocol steps. */
module RefineStep {
  import opened Types
  import opened Membership
  import opened RaftLog
  import opened Event
  import opened RaftCore
  import FollowerRole
  import PreCandidateRole
  import LeaderRole
  import opened RaftNode
  import opened Refinement
  import opened RefineRoles
  import opened RefineLeader
  import P = Protocol

  ghost predicate NodeOk(voters: set<NodeId>, node: Node) {
    CoreOk(voters, node.core) && RoleOk(voters, node.role) && (node.role.Leader? ==> node.core.p.term > 0)
  }

  /** A tick, or the delivery of a message some voter sent to this node. */
  ghost predicate Genuine(voters: set<NodeId>, net: set<Message>, node: Node, event: Event) {
    match event
    case Tick(_) => true
    case Receive(m, _) => m in net && m.to == node.core.id && m.from in voters
    case DiskWriteComplete(_) => false
  }

  /** The event makes this node merge entries into its log. */
  predicate Appends(node: Node, event: Event) {
    && node.role.Follower? && event.Receive?
    && event.message.body.AppendRequest? && event.message.term >= node.core.p.term
  }

  ghost predicate Mergeable(node: Node, event: Event) {
    Appends(node, event) ==> Acceptable(node.core.p.log, event.message.body)
  }

  /** The acknowledgement this event produces, if any, reports a prefix of the leader's log. */
  predicate HonestEvent(lead: Option<P.LeaderLogs>, node: Node, event: Event) {
    Appends(node, event) ==> Honest(lead, node.core.p.log, event.message.term, event.message.body)
  }

  /** What the role's own step may leave for the role change that follows it. */
  ghost predicate RoleStepRefined(lead: Option<P.LeaderLogs>, voters: set<NodeId>, net: set<Message>, node: Node,
                                  r: StepResult) {
    if r.transition.Stay? then Refined(lead, voters, net, node.core, node.role, r.core, r.role, r.effects)
    else
      && CoreOk(voters, r.core)
      && (|| (&& r.transition.ToFollower?
              && Refined(lead, voters, net, node.core, node.role, r.core, Follower(r.transition.leader), r.effects))
          || (&& Refined(lead, voters, net, node.core, node.role, r.core, r.role, r.effects)
              && !r.role.Leader?
              && (r.transition.ToLeader? ==> r.role.Candidate? && P.Majority(voters, r.role.votes))))
  }

  lemma TickRefined(lead: Option<P.LeaderLogs>, voters: set<NodeId>, net: set<Message>, node: Node, expired: bool)
    requires NodeOk(voters, node)
    ensures RoleStepRefined(lead, voters, net, node, RoleStep(node, Tick(expired)))
  {
    hide Refined, CoreOk, LeaderRole.HandleTick;
    match node.role
    case Leader(state) =>
      LeaderTickRefined(lead, voters, net, node.core, state, expired);
      LeaderTickStays(node.core, state, expired);
    case _ => QuietRefined(lead, voters, net, node.core, node.role, node.role, NO_EFFECTS);
  }

  lemma LeaderTickStays(core: Core, state: LeaderState, expired: bool)
    ensures LeaderRole.HandleTick(core, state, expired).transition.Stay?
  {
  }

  /** A message that makes a node change role leaves its log as it was. */
  lemma RaisedOk(voters: set<NodeId>, core: Core, core': Core)
    requires CoreOk(voters, core) && core' == core.(p := core.p.(term := core'.p.term, votedFor := core'.p.votedFor))
    ensures CoreOk(voters, core')
  {
  }

  lemma FollowerMessage(lead: Option<P.LeaderLogs>, voters: set<NodeId>, net: set<Message>, node: Node, m: Message,
                        recent: bool)
    requires NodeOk(voters, node) && node.role.Follower? && Genuine(voters, net, node, Receive(m, recent))
    requires Mergeable(node, Receive(m, recent)) && HonestEvent(lead, node, Receive(m, recent))
    ensures RoleStepRefined(lead, voters, net, node, RoleStep(node, Receive(m, recent)))
  {
    hide Refined, CoreOk, FollowerRole.HandleAppend, FollowerRole.HandleVote, Acceptable, Honest;
    FollowerRefined(lead, voters, net, node.core, node.role, m, recent);
    AppendStays(node.core.MaybeUpdateTerm(m.term), m);
    var r := RoleStep(node, Receive(m, recent));
    if !r.transition.Stay? {
      RaisedOk(voters, node.core, r.core);
    }
  }

  lemma AppendStays(core: Core, m: Message)
    ensures m.body.AppendRequest? ==> FollowerRole.HandleAppend(core, m.from, m.body).transition.Stay?
    ensures m.body.VoteRequest? ==> FollowerRole.HandleVote(core, Follower(None), m.from, m.body).transition.Stay?
    ensures forall role :: m.body.VoteRequest? ==> FollowerRole.HandleVote(core, role, m.from, m.body).transition.Stay?
  {
  }

  lemma PreCandidateMessage(lead: Option<P.LeaderLogs>, voters: set<NodeId>, net: set<Message>, node: Node, m: Message,
                            recent: bool)
    requires NodeOk(voters, node) && node.role.PreCandidate?
    ensures RoleStepRefined(lead, voters, net, node, RoleStep(node, Receive(m, recent)))
  {
    hide Refined, CoreOk, PreCandidateRole.HasQuorum;
    PreCandidateRefined(lead, voters, net, node.core, node.role, m, recent);
    RaisedOk(voters, node.core, RoleStep(node, Receive(m, recent)).core);
  }

  lemma CandidateMessage(lead: Option<P.LeaderLogs>, voters: set<NodeId>, net: set<Message>, node: Node, m: Message,
                         recent: bool)
    requires NodeOk(voters, node) && node.role.Candidate? && Genuine(voters, net, node, Receive(m, recent))
    ensures RoleStepRefined(lead, voters, net, node, RoleStep(node, Receive(m, recent)))
  {
    FixedConfig(voters, node.core);
    hide Refined, CoreOk, LatestConfig;
    CandidateRefined(lead, voters, net, node.core, node.role, m, recent);
    RaisedOk(voters, node.core, RoleStep(node, Receive(m, recent)).core);
  }

  lemma LeaderMessage(lead: Option<P.LeaderLogs>, voters: set<NodeId>, net: set<Message>, node: Node, m: Message,
                      recent: bool)
    requires NodeOk(voters, node) && node.role.Leader? && Genuine(voters, net, node, Receive(m, recent))
    ensures RoleStepRefined(lead, voters, net, node, RoleStep(node, Receive(m, recent)))
  {
    hide Refined, CoreOk, LeaderRole.HandleAppendResponse, LeaderRole.HandleReadResponse;
    LeaderMessageRefined(lead, voters, net, node.core, node.role.state, m);
    var r := RoleStep(node, Receive(m, recent));
    if !r.transition.Stay? {
      LeaderLeaves(voters, node.core, node.role.state, m);
      RaisedOk(voters, node.core, r.core);
    }
  }

  lemma LeaderLeaves(voters: set<NodeId>, core: Core, state: LeaderState, m: Message)
    requires CoreOk(voters, core) && !LeaderRole.HandleMessage(core, state, m).transition.Stay?
    ensures LeaderRole.HandleMessage(core, state, m).core == core.MaybeUpdateTerm(m.term)
  {
    hide LeaderRole.MaybeCommit, LeaderRole.SendAppendTo, LeaderRole.HandleReadResponse;
    if m.body.AppendResponse? && m.body.success {
      var acked := state.(matchIndex := state.matchIndex[m.from := m.body.ackLastIndex]);
      MaybeCommitPlain(voters, core, acked);
      MaybeCommitPlain(voters, core, acked.(nextIndex := acked.nextIndex[m.from := m.body.ackLastIndex + 1]));
    }
  }

  lemma ReceiveRefined(lead: Option<P.LeaderLogs>, voters: set<NodeId>, net: set<Message>, node: Node, event: Event)
    requires NodeOk(voters, node) && Genuine(voters, net, node, event)
    requires Mergeable(node, event) && HonestEvent(lead, node, event)
    ensures RoleStepRefined(lead, voters, net, node, RoleStep(node, event))
  {
    hide RoleStepRefined, RoleStep, NodeOk, Mergeable, HonestEvent;
    match event
    case Tick(expired) => TickRefined(lead, voters, net, node, expired);
    case Receive(m, recent) =>
      match node.role
      case Follower(_) => FollowerMessage(lead, voters, net, node, m, recent);
      case PreCandidate(_) => PreCandidateMessage(lead, voters, net, node, m, recent);
      case Candidate(_) => CandidateMessage(lead, voters, net, node, m, recent);
      case Leader(_) => LeaderMessage(lead, voters, net, node, m, recent);
  }

  lemma EventRefined(lead: Option<P.LeaderLogs>, voters: set<NodeId>, net: set<Message>, node: Node, event: Event)
    requires NodeOk(voters, node) && Genuine(voters, net, node, event)
    requires Mergeable(node, event) && HonestEvent(lead, node, event)
    ensures var (node', effects) := StepEvent(node, event);
            Refined(lead, voters, net, node.core, node.role, node'.core, node'.role, effects)
  {
    ReceiveRefined(lead, voters, net, node, event);
    hide RoleStep, Refined, CoreOk, Mergeable, HonestEvent, Genuine, BecomeCandidate, BecomeLeader,
        PreCandidateRole.New;
    var r := RoleStep(node, event);
    if !r.transition.Stay? {
      if r.transition.ToFollower? && Refined(lead, voters, net, node.core, node.role, r.core,
                                             Follower(r.transition.leader), r.effects) {
        RefinedFlag(lead, voters, net, node.core, node.role, r.core, Follower(r.transition.leader), r.effects,
                    r.effects.Merge(NO_EFFECTS));
      } else {
        RefinedRole(lead, voters, net, node.core, node.role, r.core, r.role, r.effects);
        TransitionRefined(lead, voters, net + Msgs(r.effects), r.core, r.role, r.transition);
        var (node', more) := ApplyTransition(r.core, r.role, r.transition);
        RefinedThen(lead, voters, net, node.core, node.role, r.core, r.role, r.effects, node'.core, node'.role, more);
      }
    }
  }

  // ----- Requests and restarts -----

  lemma ProposalRefined(lead: Option<P.LeaderLogs>, voters: set<NodeId>, net: set<Message>, node: Node, command: Bytes)
    requires NodeOk(voters, node) && Propose(node, command).Proposed?
    ensures var r := Propose(node, command);
            Refined(lead, voters, net, node.core, node.role, r.node.core, r.node.role, r.effects)
  {
    hide Refined, LeaderRole.Propose, CoreOk;
    ProposeRefined(lead, voters, net, node.core, node.role.state, command);
  }

  lemma TransferRefined(lead: Option<P.LeaderLogs>, voters: set<NodeId>, net: set<Message>, node: Node, target: NodeId)
    requires NodeOk(voters, node) && TransferLeadership(node, target).Some?
    ensures Refined(lead, voters, net, node.core, node.role, node.core, node.role,
                    TransferLeadership(node, target).value)
  {
    hide Refined, CoreOk;
    QuietRefined(lead, voters, net, node.core, node.role, node.role, TransferLeadership(node, target).value);
  }

  lemma CrashRefined(lead: Option<P.LeaderLogs>, voters: set<NodeId>, net: set<Message>, node: Node)
    ensures var node' := Restore(node.core.id, node.core.opts, node.core.p);
            Refined(lead, voters, net, node.core, node.role, node'.core, node'.role, NO_EFFECTS)
  {
    var node' := Restore(node.core.id, node.core.opts, node.core.p);
    Via(lead, voters, net, node.core.id, View(node.core, node.role), P.Rest(true), View(node'.core, node'.role), {});
    assert net + {} == net + Msgs(NO_EFFECTS);
  }
}
