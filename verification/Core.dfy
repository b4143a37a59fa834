/** State shared by every role (consensus/basisdb-raft/src/raft/core.rs) and the role states. */
module RaftCore {
  import opened Types
  import opened Membership
  import opened RaftLog
  import opened Event

  datatype Options = Options(
    maxEntriesPerMsg: nat,
    maxUncommittedEntries: nat,
    maxUncommittedBytes: nat,
    prevote: bool,
    parallelDiskWrite: bool,
    pipelining: bool)

  /** What section 3.8 of the dissertation requires on stable storage. */
  datatype Persistent = Persistent(
    term: Term, votedFor: Option<NodeId>, log: Log, bootstrap: Configuration)

  datatype Core = Core(
    id: NodeId, opts: Options, p: Persistent, commitIndex: LogIndex, lastApplied: LogIndex)
  {
    function Term(): Term { p.term }

    function ConfigAt(index: LogIndex): Configuration {
      var c := p.log.ConfigAt(index);
      if c.Some? then c.value else p.bootstrap
    }

    /** The latest configuration in the log takes effect when appended. */
    function EffectiveConfig(): Configuration {
      ConfigAt(p.log.LastIndex())
    }

    predicate SelfIsVoter() {
      EffectiveConfig().IsVoter(id)
    }

    function MaybeUpdateTerm(term: Term): Core {
      if term > p.term then this.(p := p.(term := term, votedFor := None)) else this
    }

    function StartElection(): Core {
      this.(p := p.(term := p.term + 1, votedFor := if SelfIsVoter() then Some(id) else None))
    }

    function VoteFor(candidate: NodeId): Core {
      this.(p := p.(votedFor := Some(candidate)))
    }

    predicate CanVoteFor(candidate: NodeId) {
      p.votedFor == None || p.votedFor == Some(candidate)
    }

    predicate LogIsUpToDate(lastTerm: Term, lastIndex: LogIndex) {
      lastTerm > p.log.LastTerm() || (lastTerm == p.log.LastTerm() && lastIndex >= p.log.LastIndex())
    }

    function WithLog(log: Log): Core {
      this.(p := p.(log := log))
    }

    function Reply(to: NodeId, body: MessageBody): Message {
      Message(id, to, p.term, body)
    }

    /** Back-pressure: too many uncommitted entries, or too many uncommitted bytes with
        the new command counted in. */
    predicate ProposalLimitExceeded(command: Bytes)
      requires commitIndex <= p.log.LastIndex()
    {
      var pending := p.log.Slice(commitIndex + 1, p.log.LastIndex());
      || |pending| >= opts.maxUncommittedEntries
      || CommandBytes(pending) + |command| > opts.maxUncommittedBytes
    }
  }

  function CommandBytes(entries: seq<Entry>): nat {
    if entries == [] then 0
    else
      CommandBytes(entries[..|entries| - 1])
      + match entries[|entries| - 1].payload
        case Command(bytes) => |bytes|
        case Config(_) => 0
  }

  datatype PendingRead = PendingRead(
    id: nat, readIndex: LogIndex, configuration: Configuration, acks: set<NodeId>)

  datatype LeaderState = LeaderState(
    nextIndex: map<NodeId, LogIndex>,
    matchIndex: map<NodeId, LogIndex>,
    nextReadId: nat,
    pendingRead: Option<PendingRead>,
    confirmedRead: LogIndex)
  {
    function MatchOf(id: NodeId): LogIndex {
      if id in matchIndex then matchIndex[id] else 0
    }

    function NextOf(id: NodeId): LogIndex {
      if id in nextIndex then nextIndex[id] else 1
    }
  }

  datatype Role =
    | Follower(leader: Option<NodeId>)
    | PreCandidate(preVotes: set<NodeId>)
    | Candidate(votes: set<NodeId>)
    | Leader(state: LeaderState)

  /** What a role hands back to the node: the shared state and its own state after the
      event, the role change it asks for, and the effects. */
  datatype StepResult = StepResult(core: Core, role: Role, transition: Transition, effects: Effects)

  datatype Node = Node(core: Core, role: Role)

  /** The answer of the three roles that follow the request-vote rules of section 4.2.3
      to a pre-vote request: grant if the candidate's next term is new, its log is up to
      date, and it votes in the configuration in force. */
  function PreVoteReply(core: Core, m: Message): Message
    requires m.body.PreVoteRequest?
  {
    var granted :=
      && core.EffectiveConfig().IsVoter(m.from)
      && m.body.nextTerm > core.Term()
      && core.LogIsUpToDate(m.body.preLastTerm, m.body.preLastIndex);
    Message(core.id, m.from, m.term, PreVoteResponse(core.Term(), granted))
  }

  /** Denies a vote or a pre-vote without touching the term. */
  function DenyVote(core: Core, m: Message): Effects {
    match m.body
    case PreVoteRequest(_, _, _) => NO_EFFECTS.WithMessage(core.Reply(m.from, PreVoteResponse(core.Term(), false)))
    case VoteRequest(_, _) => NO_EFFECTS.WithMessage(core.Reply(m.from, VoteResponse(false)))
    case _ => NO_EFFECTS
  }

  /** Candidates and leaders answer stale requests with their own, newer term. */
  function RejectStale(core: Core, m: Message): Effects {
    match m.body
    case VoteRequest(_, _) => NO_EFFECTS.WithMessage(core.Reply(m.from, VoteResponse(false)))
    case AppendRequest(_, _, _, _) =>
      NO_EFFECTS.WithMessage(core.Reply(m.from, AppendResponse(false, core.p.log.LastIndex())))
    case _ => NO_EFFECTS
  }
}
