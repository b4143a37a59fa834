/** Candidate role (consensus/basisdb-raft/src/raft/candidate.rs). */
module CandidateRole {
  import opened Types
  import opened Membership
  import opened Event
  import opened RaftCore

  function Requests(core: Core, peers: seq<NodeId>, body: MessageBody): (r: seq<Message>)
    ensures |r| == |peers|
    ensures forall k :: 0 <= k < |peers| ==> r[k] == core.Reply(peers[k], body)
  {
    seq(|peers|, k requires 0 <= k < |peers| => core.Reply(peers[k], body))
  }

  /** Starts an election: new term, vote for self, vote requests to the other voters. */
  function New(core: Core): (Core, Role, Effects) {
    var core' := core.StartElection();
    var config := core'.EffectiveConfig();
    var votes := if core'.SelfIsVoter() then {core'.id} else {};
    if config.VoterCount() == 1 && config.IsVoter(core'.id) then
      (core', Candidate(votes), NO_EFFECTS.WithPersist())
    else
      var body := VoteRequest(core'.p.log.LastIndex(), core'.p.log.LastTerm());
      (core', Candidate(votes), Effects(true, Requests(core', Without(config.Voters(), core'.id), body), []))
  }

  predicate HasQuorum(core: Core, votes: set<NodeId>) {
    core.EffectiveConfig().HasQuorum(votes)
  }

  function HandleVoteResponse(core: Core, role: Role, from: NodeId, granted: bool): StepResult
    requires role.Candidate?
  {
    if !granted then StepResult(core, role, Stay, NO_EFFECTS)
    else
      var role' := Candidate(role.votes + {from});
      StepResult(core, role', if HasQuorum(core, role'.votes) then ToLeader else Stay, NO_EFFECTS)
  }

  function HandleMessage(core: Core, role: Role, m: Message, recent: bool): StepResult
    requires role.Candidate?
  {
    if (m.body.VoteRequest? || m.body.PreVoteRequest?) && recent then
      StepResult(core, role, Stay, DenyVote(core, m))
    else if m.body.PreVoteRequest? then
      StepResult(core, role, Stay, NO_EFFECTS.WithMessage(PreVoteReply(core, m)))
    else if m.term > core.Term() then
      StepResult(core.MaybeUpdateTerm(m.term), role,
        ToFollower(if m.body.AppendRequest? then Some(m.from) else None), NO_EFFECTS.WithPersist())
    else if m.term < core.Term() then
      StepResult(core, role, Stay, RejectStale(core, m))
    else
      match m.body
      case VoteResponse(granted) => HandleVoteResponse(core, role, m.from, granted)
      case AppendRequest(_, _, _, _) => StepResult(core, role, ToFollowerAfterContact(Some(m.from)), NO_EFFECTS)
      case VoteRequest(_, _) =>
        StepResult(core, role, Stay, NO_EFFECTS.WithMessage(core.Reply(m.from, VoteResponse(false))))
      case TimeoutNow => StepResult(core, role, ToCandidate, NO_EFFECTS)
      case _ => StepResult(core, role, Stay, NO_EFFECTS)
  }

  function Step(core: Core, role: Role, event: Event): StepResult
    requires role.Candidate?
  {
    match event
    case Tick(expired) => StepResult(core, role, if expired then ToCandidate else Stay, NO_EFFECTS)
    case DiskWriteComplete(_) => StepResult(core, role, Stay, NO_EFFECTS)
    case Receive(m, recent) => HandleMessage(core, role, m, recent)
  }
}
