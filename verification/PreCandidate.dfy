/** Pre-candidate role (consensus/basisdb-raft/src/raft/precandidate.rs). */
module PreCandidateRole {
  import opened Types
  import opened Membership
  import opened Event
  import opened RaftCore
  import CandidateRole

  /** Starts a pre-election: no term change, pre-vote requests to the other voters. */
  function New(core: Core): (Role, Effects) {
    var config := core.EffectiveConfig();
    var preVotes := if core.SelfIsVoter() then {core.id} else {};
    if config.VoterCount() == 1 && config.IsVoter(core.id) then
      (PreCandidate(preVotes), NO_EFFECTS)
    else
      var body := PreVoteRequest(core.Term() + 1, core.p.log.LastIndex(), core.p.log.LastTerm());
      (PreCandidate(preVotes), Effects(false, CandidateRole.Requests(core, Without(config.Voters(), core.id), body),
                                       []))
  }

  predicate HasQuorum(core: Core, preVotes: set<NodeId>) {
    core.EffectiveConfig().HasQuorum(preVotes)
  }

  function HandlePreVoteResponse(core: Core, role: Role, from: NodeId, body: MessageBody): StepResult
    requires role.PreCandidate? && body.PreVoteResponse?
  {
    if body.responderTerm > core.Term() then
      StepResult(core.MaybeUpdateTerm(body.responderTerm), role, ToFollower(None), NO_EFFECTS.WithPersist())
    else if body.responderTerm < core.Term() || !body.preGranted then
      StepResult(core, role, Stay, NO_EFFECTS)
    else
      var role' := PreCandidate(role.preVotes + {from});
      StepResult(core, role', if HasQuorum(core, role'.preVotes) then ToCandidate else Stay, NO_EFFECTS)
  }

  /** Unlike the other roles, a pre-candidate does not reject messages of older terms. */
  function HandleMessage(core: Core, role: Role, m: Message, recent: bool): StepResult
    requires role.PreCandidate?
  {
    if (m.body.VoteRequest? || m.body.PreVoteRequest?) && recent then
      StepResult(core, role, Stay, DenyVote(core, m))
    else if m.term > core.Term() then
      StepResult(core.MaybeUpdateTerm(m.term), role,
        ToFollower(if m.body.AppendRequest? then Some(m.from) else None), NO_EFFECTS.WithPersist())
    else
      match m.body
      case PreVoteResponse(_, _) => HandlePreVoteResponse(core, role, m.from, m.body)
      case AppendRequest(_, _, _, _) => StepResult(core, role, ToFollowerAfterContact(Some(m.from)), NO_EFFECTS)
      case PreVoteRequest(_, _, _) => StepResult(core, role, Stay, NO_EFFECTS.WithMessage(PreVoteReply(core, m)))
      case VoteRequest(_, _) =>
        StepResult(core, role, Stay, NO_EFFECTS.WithMessage(core.Reply(m.from, VoteResponse(false))))
      case TimeoutNow => StepResult(core, role, ToCandidate, NO_EFFECTS)
      case _ => StepResult(core, role, Stay, NO_EFFECTS)
  }

  function Step(core: Core, role: Role, event: Event): StepResult
    requires role.PreCandidate?
  {
    match event
    case Tick(expired) => StepResult(core, role, if expired then ToPreCandidate else Stay, NO_EFFECTS)
    case DiskWriteComplete(_) => StepResult(core, role, Stay, NO_EFFECTS)
    case Receive(m, recent) => HandleMessage(core, role, m, recent)
  }
}
