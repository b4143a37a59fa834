/** The node that drives the roles (consensus/basisdb-raft/src/raft/mod.rs). */
module RaftNode {
  import opened Types
  import opened Membership
  import opened RaftLog
  import opened Event
  import opened RaftCore
  import FollowerRole
  import PreCandidateRole
  import CandidateRole
  import LeaderRole

  function RoleStep(node: Node, event: Event): StepResult {
    match node.role
    case Follower(_) => FollowerRole.Step(node.core, node.role, event)
    case PreCandidate(_) => PreCandidateRole.Step(node.core, node.role, event)
    case Candidate(_) => CandidateRole.Step(node.core, node.role, event)
    case Leader(_) => LeaderRole.Step(node.core, node.role, event)
  }

  function BecomeLeader(core: Core): (Node, Effects) {
    var (state, effects) := LeaderRole.New(core);
    (Node(core, Leader(state)), effects)
  }

  /** A candidate that already holds a quorum of votes leads at once. */
  function BecomeCandidate(core: Core): (Node, Effects) {
    var (core', role, effects) := CandidateRole.New(core);
    if CandidateRole.HasQuorum(core', role.votes) then
      var (node, more) := BecomeLeader(core');
      (node, effects.Merge(more))
    else (Node(core', role), effects)
  }

  function ApplyTransition(core: Core, role: Role, transition: Transition): (Node, Effects) {
    match transition
    case Stay => (Node(core, role), NO_EFFECTS)
    case ToFollower(leader) => (Node(core, Follower(leader)), NO_EFFECTS)
    case ToFollowerAfterContact(leader) => (Node(core, Follower(leader)), NO_EFFECTS)
    case ToPreCandidate =>
      var (role', effects) := PreCandidateRole.New(core);
      if PreCandidateRole.HasQuorum(core, role'.preVotes) then
        var (node, more) := BecomeCandidate(core);
        (node, effects.Merge(more))
      else (Node(core, role'), effects)
    case ToCandidate => BecomeCandidate(core)
    case ToLeader => BecomeLeader(core)
  }

  function StepEvent(node: Node, event: Event): (Node, Effects) {
    var r := RoleStep(node, event);
    var (node', more) := ApplyTransition(r.core, r.role, r.transition);
    (node', if r.transition.Stay? then r.effects else r.effects.Merge(more))
  }

  function LeaderHint(node: Node): Option<NodeId> {
    match node.role
    case Leader(_) => Some(node.core.id)
    case Follower(leader) => leader
    case _ => None
  }

  /** `Panicked` is the failed assertion of the source: the commit index is past the log. */
  datatype ProposeOutcome =
    | Proposed(node: Node, index: LogIndex, effects: Effects)
    | NotLeader(hint: Option<NodeId>)
    | Throttled
    | Panicked

  function Propose(node: Node, command: Bytes): ProposeOutcome {
    match node.role
    case Leader(state) =>
      if node.core.commitIndex > node.core.p.log.LastIndex() then Panicked
      else if node.core.ProposalLimitExceeded(command) then Throttled
      else
        var r := LeaderRole.Propose(node.core, state, command);
        var role := if r.stepDown then Follower(None) else Leader(r.state);
        Proposed(Node(r.core, role), node.core.p.log.LastIndex() + 1, r.effects)
    case _ => NotLeader(LeaderHint(node))
  }

  function RequestReadIndex(node: Node): LeaderRole.ReadOutcome {
    match node.role
    case Leader(state) => LeaderRole.RequestReadIndex(node.core, state)
    case _ => LeaderRole.ReadRefused(LeaderRole.ReadNotLeader(LeaderHint(node)))
  }

  /** Whether a requested read index is confirmed and applied. */
  predicate ReadReady(node: Node, readIndex: LogIndex) {
    node.role.Leader? && node.role.state.confirmedRead >= readIndex && node.core.lastApplied >= readIndex
  }

  /** Leadership transfer: a caught-up voter is told to start an election (section 3.10). */
  function TransferLeadership(node: Node, target: NodeId): Option<Effects> {
    match node.role
    case Leader(state) =>
      if target == node.core.id || !node.core.EffectiveConfig().IsVoter(target)
         || state.MatchOf(target) < node.core.p.log.LastIndex() then None
      else Some(NO_EFFECTS.WithMessage(node.core.Reply(target, TimeoutNow)))
    case _ => None
  }

  /** The next committed command not yet applied, skipping configuration entries. */
  function NextCommitted(core: Core, from: LogIndex): Option<Entry>
    decreases core.commitIndex + 1 - from
  {
    if from > core.commitIndex then None
    else
      match core.p.log.Get(from)
      case Some(e) => if e.payload.Command? then Some(e) else NextCommitted(core, from + 1)
      case None => NextCommitted(core, from + 1)
  }

  function Restore(id: NodeId, opts: Options, p: Persistent): Node {
    Node(Core(id, opts, p, 0, 0), Follower(None))
  }

  function NewNode(id: NodeId, opts: Options, voters: set<NodeId>): Node {
    Restore(id, opts, Persistent(0, None, EMPTY_LOG, Simple(voters, {})))
  }
}
