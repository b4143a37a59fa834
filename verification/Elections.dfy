/** What each message about elections does to each role (consensus/basisdb-raft/src/raft/follower.rs,
    precandidate.rs, candidate.rs and mod.rs), said of the whole event. */
module Elections {
  import opened Types
  import opened Membership
  import opened RaftLog
  import opened Event
  import opened RaftCore
  import CandidateRole
  import H = Heartbeat
  import LeaderRole
  import LogRules
  import PreCandidateRole
  import opened RaftNode

  /** One message and nothing else. */
  function Just(m: Message): Effects {
    Effects(false, [m], [])
  }

  lemma JustOne()
    ensures forall m :: NO_EFFECTS.WithMessage(m) == Just(m)
  {
  }

  lemma NoMore()
    ensures forall e: Effects :: e.Merge(NO_EFFECTS) == e
    ensures forall e: Effects :: NO_EFFECTS.Merge(e) == e
  {
  }

  /** The log described is at least as recent as the server's own (section 3.6.1 of the
      dissertation). */
  predicate Recent(log: Log, lastTerm: Term, lastIndex: LogIndex) {
    lastTerm > log.LastTerm() || (lastTerm == log.LastTerm() && lastIndex >= log.LastIndex())
  }

  // ----- Votes -----

  /** Who has heard from a leader lately, or is a candidate that has, answers requests for votes
      and for pre-votes with a denial, and keeps term and vote. */
  predicate Guarded(node: Node, recent: bool) {
    recent && (node.role.Candidate? || node.role.PreCandidate? || (node.role.Follower? && node.role.leader.Some?))
  }

  lemma GuardDenies(node: Node, m: Message, recent: bool)
    requires Guarded(node, recent) && (m.body.VoteRequest? || m.body.PreVoteRequest?)
    ensures var no := if m.body.VoteRequest? then VoteResponse(false) else PreVoteResponse(node.core.p.term, false);
            StepEvent(node, Receive(m, recent)) == (node, Just(Message(node.core.id, m.from, node.core.p.term, no)))
  {
    NoMore();
    JustOne();
  }

  /** A follower outside the guard grants its vote exactly to a voter with a recent log, in a term
      that is not past and in which it has not voted for another. The vote is kept and saved. */
  lemma VoteIff(node: Node, m: Message, recent: bool)
    requires node.role.Follower? && m.body.VoteRequest? && !Guarded(node, recent)
    ensures var (node', e) := StepEvent(node, Receive(m, recent));
            var (p, p') := (node.core.p, node'.core.p);
            var granted :=
              && m.term >= p.term && node.core.EffectiveConfig().IsVoter(m.from)
              && (m.term > p.term || p.votedFor == None || p.votedFor == Some(m.from))
              && Recent(p.log, m.body.lastLogTerm, m.body.lastLogIndex);
            && e.messages == [Message(node.core.id, m.from, Max(m.term, p.term), VoteResponse(granted))]
            && e.sendSnapshots == [] && e.persist == (granted || m.term > p.term)
            && node'.role == node.role && node'.core.(p := p) == node.core
            && p' == p.(term := Max(m.term, p.term),
                        votedFor := if granted then Some(m.from) else if m.term > p.term then None else p.votedFor)
  {
  }

  /** No other role grants a vote of its own term or an older one. */
  lemma VoteDenied(node: Node, m: Message, recent: bool)
    requires !node.role.Follower? && m.body.VoteRequest? && m.term <= node.core.p.term
    ensures StepEvent(node, Receive(m, recent))
         == (node, Just(Message(node.core.id, m.from, node.core.p.term, VoteResponse(false))))
  {
    NoMore();
    JustOne();
  }

  /** A pre-vote is granted exactly to a voter with a recent log for a term that is new, by a
      server outside the guard that does not lead, and changes nothing. The answer has the
      request's term, a denial by the guard or by a leader the server's own. */
  lemma PreVoteIff(node: Node, m: Message, recent: bool)
    requires m.body.PreVoteRequest? && (node.role.PreCandidate? ==> m.term <= node.core.p.term)
    ensures var (node', e) := StepEvent(node, Receive(m, recent));
            var granted :=
              && !Guarded(node, recent) && !node.role.Leader?
              && node.core.EffectiveConfig().IsVoter(m.from) && m.body.nextTerm > node.core.p.term
              && Recent(node.core.p.log, m.body.preLastTerm, m.body.preLastIndex);
            && node' == node && !e.persist && e.sendSnapshots == [] && |e.messages| == 1
            && e.messages[0].from == node.core.id && e.messages[0].to == m.from
            && e.messages[0].term == (if Guarded(node, recent) || node.role.Leader? then node.core.p.term else m.term)
            && e.messages[0].body == PreVoteResponse(node.core.p.term, granted)
  {
  }

  // ----- Newer and older terms -----

  /** Who does not follow gives way to a newer term, without a vote in it. */
  lemma NewerTerm(node: Node, m: Message, recent: bool)
    requires !node.role.Follower? && m.term > node.core.p.term
    requires m.body.PreVoteRequest? ==> node.role.PreCandidate?
    requires m.body.VoteRequest? || m.body.PreVoteRequest? ==> !Guarded(node, recent)
    ensures StepEvent(node, Receive(m, recent))
         == (Node(node.core.(p := node.core.p.(term := m.term, votedFor := None)),
                  Follower(if m.body.AppendRequest? then Some(m.from) else None)),
             Effects(true, [], []))
  {
    NoMore();
  }

  /** A request of an older term changes nothing. An append request, and a read round that reaches
      a follower, are answered with the newer term. A pre-candidate follows whoever sends entries,
      in an older term too. */
  lemma OlderTerm(node: Node, m: Message, recent: bool)
    requires m.term < node.core.p.term && (m.body.AppendRequest? || m.body.ReadIndexRequest?)
    ensures var (reply, core) := (body => Just(Message(node.core.id, m.from, node.core.p.term, body)), node.core);
            StepEvent(node, Receive(m, recent)) ==
            if m.body.AppendRequest? && node.role.PreCandidate? then (Node(core, Follower(Some(m.from))), NO_EFFECTS)
            else if m.body.AppendRequest? then (node, reply(AppendResponse(false, core.p.log.LastIndex())))
            else if node.role.Follower? then (node, reply(ReadIndexResponse(m.body.readId, m.body.readIndex)))
            else (node, NO_EFFECTS)
  {
    NoMore();
    JustOne();
    hide Core.EffectiveConfig;
  }

  /** A candidate that hears from the leader of its term follows it. */
  lemma LeaderHeard(node: Node, m: Message, recent: bool)
    requires (node.role.Candidate? || node.role.PreCandidate?) && m.body.AppendRequest? && m.term == node.core.p.term
    ensures StepEvent(node, Receive(m, recent)) == (Node(node.core, Follower(Some(m.from))), NO_EFFECTS)
  {
    NoMore();
  }

  // ----- Followers -----

  /** A follower takes entries of its term or a newer one exactly if its log has the entry before
      them, and answers with where its log then ends; it then follows the sender. */
  lemma AppendIff(node: Node, m: Message, recent: bool)
    requires node.role.Follower? && m.body.AppendRequest? && m.term >= node.core.p.term
    ensures var (node', e) := StepEvent(node, Receive(m, recent));
            var (p, p') := (node.core.p, node'.core.p);
            var taken := m.body.prevLogIndex == 0 || p.log.TermAt(m.body.prevLogIndex) == m.body.prevLogTerm;
            && node'.role == Follower(Some(m.from))
            && e.messages == [Message(node.core.id, m.from, m.term, AppendResponse(taken, p'.log.LastIndex()))]
            && e.sendSnapshots == [] && (m.term > p.term ==> e.persist)
            && p'.(log := p.log) == p.(term := m.term, votedFor := if m.term > p.term then None else p.votedFor)
            && (!taken ==> p'.log == p.log && node'.core.commitIndex == node.core.commitIndex)
            && (taken ==> node'.core.commitIndex == if m.body.leaderCommit > node.core.commitIndex
                                                    then Min(m.body.leaderCommit, p'.log.LastIndex())
                                                    else node.core.commitIndex)
            && node'.core.(p := p, commitIndex := node.core.commitIndex) == node.core
  {
    hide Core.EffectiveConfig, Log.LastIndex, Log.TermAt;
  }

  /** A follower answers a read round of its term or a newer one with the numbers of the round. */
  lemma RoundAnswered(node: Node, m: Message, recent: bool)
    requires node.role.Follower? && m.body.ReadIndexRequest? && m.term >= node.core.p.term
    ensures var p := node.core.p;
            StepEvent(node, Receive(m, recent)) ==
            (Node(node.core.(p := p.(term := m.term, votedFor := if m.term > p.term then None else p.votedFor)),
                  Follower(Some(m.from))),
             Effects(m.term > p.term, [Message(node.core.id, m.from, m.term,
                                               ReadIndexResponse(m.body.readId, m.body.readIndex))], []))
  {
    NoMore();
    JustOne();
    hide Core.EffectiveConfig;
  }

  // ----- Campaigns -----

  /** Every set of voters is this one server. */
  predicate Sole(c: Configuration, id: NodeId) {
    match c
    case Simple(voters, _) => voters == {id}
    case Joint(outgoing, incoming, _) => outgoing == {id} && incoming == {id}
  }

  /** The other voters, and only they, are sent `body`. */
  ghost predicate Canvasses(core: Core, body: MessageBody, messages: seq<Message>) {
    forall m: Message ::
      m in messages <==>
      m.to != core.id && core.EffectiveConfig().IsVoter(m.to) && m == Message(core.id, m.to, core.p.term, body)
  }

  /** A new leader takes every member to have nothing, expects it to go on after its own log, and
      tells every other one that it leads. It does not count itself if it writes to disk while it
      sends. */
  ghost predicate Starts(core: Core, node: Node, e: Effects) {
    var next := core.p.log.LastIndex() + 1;
    && node.core == core && node.role.Leader? && !e.persist && e.sendSnapshots == []
    && node.role.state.nextReadId == 1 && node.role.state.pendingRead == None && node.role.state.confirmedRead == 0
    && (forall x: NodeId ::
          && node.role.state.MatchOf(x) == (if x == core.id && !core.opts.parallelDiskWrite then next - 1 else 0)
          && (core.EffectiveConfig().IsMember(x) ==> node.role.state.NextOf(x) == next))
    && (forall m :: m in e.messages ==> H.Other(core, m.to) && H.Resumes(core, next, m))
    && (forall to: NodeId :: H.Other(core, to) ==> exists m :: m in e.messages && m.to == to)
  }

  /** A campaign is for the next term, with a vote for itself if it is a voter, and asks the other
      voters; the only voter leads at once. */
  ghost predicate Campaigns(core: Core, node: Node, e: Effects) {
    var self := core.EffectiveConfig().IsVoter(core.id);
    var core' := core.(p := core.p.(term := core.p.term + 1, votedFor := if self then Some(core.id) else None));
    if Sole(core.EffectiveConfig(), core.id)
      then e.persist && Starts(core', node, e.(persist := false))
    else && node == Node(core', Candidate(if self then {core.id} else {})) && e.persist && e.sendSnapshots == []
         && Canvasses(core', VoteRequest(core.p.log.LastIndex(), core.p.log.LastTerm()), e.messages)
  }

  /** A pre-campaign changes neither term nor vote, and asks for the next term. */
  ghost predicate PreCampaigns(core: Core, node: Node, e: Effects) {
    var self := core.EffectiveConfig().IsVoter(core.id);
    var ask := PreVoteRequest(core.p.term + 1, core.p.log.LastIndex(), core.p.log.LastTerm());
    if Sole(core.EffectiveConfig(), core.id) then Campaigns(core, node, e)
    else && node == Node(core, PreCandidate(if self then {core.id} else {})) && !e.persist && e.sendSnapshots == []
         && Canvasses(core, ask, e.messages)
  }

  lemma SoleIff(c: Configuration, id: NodeId)
    ensures Sole(c, id) <==> c.HasQuorum({id})
    ensures c.VoterCount() == 1 && c.IsVoter(id) ==> forall x :: c.IsVoter(x) ==> x == id
    ensures Sole(c, id) ==> c.VoterCount() == 1
    ensures !c.HasQuorum({})
  {
    if c.Simple? {
      OneOf(c.voters, id);
    } else {
      OneOf(c.outgoing, id);
      OneOf(c.incoming, id);
      OneOf(c.outgoing + (c.incoming - c.outgoing), id);
      assert |c.outgoing + (c.incoming - c.outgoing)| == c.VoterCount();
      assert forall x :: c.IsVoter(x) <==> x in c.outgoing + (c.incoming - c.outgoing);
    }
  }

  lemma OneOf(s: set<NodeId>, id: NodeId)
    ensures |s * {id}| > |s| / 2 <==> s == {id}
    ensures |s| == 1 && id in s <==> s == {id}
    ensures id !in s ==> s * {id} == {}
    ensures s * {} == {}
  {
    if id in s {
      assert s * {id} == {id} && s == {id} + (s - {id});
    } else {
      assert s * {id} == {};
    }
  }

  lemma RequestsCanvass(core: Core, body: MessageBody)
    ensures Canvasses(core, body, CandidateRole.Requests(core, Without(core.EffectiveConfig().Voters(), core.id), body))
  {
    var peers := Without(core.EffectiveConfig().Voters(), core.id);
    var messages := CandidateRole.Requests(core, peers, body);
    QuorumIff(core.EffectiveConfig(), {});
    forall m: Message
      | m.to != core.id && core.EffectiveConfig().IsVoter(m.to) && m == Message(core.id, m.to, core.p.term, body)
      ensures m in messages
    {
      assert m.to in peers;
      var k :| 0 <= k < |peers| && peers[k] == m.to;
      assert messages[k] == m;
    }
    forall m | m in messages
      ensures m.to != core.id && core.EffectiveConfig().IsVoter(m.to) && m == Message(core.id, m.to, core.p.term, body)
    {
      var k :| 0 <= k < |peers| && messages[k] == m;
      assert m.to == peers[k] && peers[k] in peers;
    }
  }

  lemma FirstProgress(core: Core)
    ensures var (state, next) := (LeaderRole.Start(core), core.p.log.LastIndex() + 1);
            && state.nextReadId == 1 && state.pendingRead == None && state.confirmedRead == 0
            && forall x: NodeId ::
                 && state.MatchOf(x) == (if x == core.id && !core.opts.parallelDiskWrite then next - 1 else 0)
                 && (core.EffectiveConfig().IsMember(x) ==> state.NextOf(x) == next)
  {
    hide Core.EffectiveConfig, Configuration.AllNodes, Log.LastIndex;
    QuorumIff(core.EffectiveConfig(), {});
  }

  lemma LeaderStarts(core: Core)
    requires core.p.log.Contiguous()
    ensures var (node, e) := BecomeLeader(core); Starts(core, node, e)
  {
    hide LeaderRole.BroadcastAppend, LeaderRole.Start, Core.EffectiveConfig, LeaderState.NextOf, LeaderState.MatchOf,
         H.Broadcasts, Starts, Log.LastIndex;
    var state := LeaderRole.Start(core);
    FirstProgress(core);
    H.BroadcastIs(core, state);
    LogRules.EntriesAt(core.p.log, 0);
    var (state', e) := LeaderRole.BroadcastAppend(core, state);
    FirstRound(core, state, state', e);
  }

  lemma Nothing<T>(s: seq<T>)
    ensures (forall x :: x !in s) ==> s == []
  {
    assert s != [] ==> s[0] in s;
  }

  /** With every member to go on past the log, a broadcast tells them so and moves nobody. */
  lemma FirstRound(core: Core, state: LeaderState, state': LeaderState, e: Effects)
    requires H.Broadcasts(core, state, state', e)
    requires var next := core.p.log.LastIndex() + 1;
             && next > core.p.log.snapshotIndex
             && state.nextReadId == 1 && state.pendingRead == None && state.confirmedRead == 0
             && forall x: NodeId ::
                  && state.MatchOf(x) == (if x == core.id && !core.opts.parallelDiskWrite then next - 1 else 0)
                  && (core.EffectiveConfig().IsMember(x) ==> state.NextOf(x) == next)
    ensures Starts(core, Node(core, Leader(state')), e)
  {
    hide H.Resumes, Core.EffectiveConfig, LeaderState.NextOf, Log.LastIndex, H.Single, Without, Configuration.AllNodes;
    var next := core.p.log.LastIndex() + 1;
    assert state'.matchIndex == state.matchIndex;
    forall x: NodeId | core.EffectiveConfig().IsMember(x) ensures state'.NextOf(x) == next {
      if H.Other(core, x) {
        assert H.Moved(core, state, x, state');
      }
    }
    forall m | m in e.messages ensures H.Other(core, m.to) && H.Resumes(core, next, m) {
      assert state.NextOf(m.to) == next;
    }
    Nothing(e.sendSnapshots);
    forall to: NodeId | H.Other(core, to) ensures exists m :: m in e.messages && m.to == to {
      assert H.Served(core, state, to, e);
    }
  }

  lemma CandidateCampaigns(core: Core)
    requires core.p.log.Contiguous()
    ensures var (node, e) := BecomeCandidate(core); Campaigns(core, node, e)
  {
    hide BecomeLeader, Starts, Log.LastIndex, Log.LastTerm, Log.Contiguous, Configuration.HasQuorum, Without, Sole,
         Configuration.VoterCount, Configuration.IsVoter, Configuration.Voters, CandidateRole.Requests, Canvasses;
    var core' := core.StartElection();
    var config := core.EffectiveConfig();
    assert core'.EffectiveConfig() == config;
    SoleIff(config, core.id);
    RequestsCanvass(core', VoteRequest(core.p.log.LastIndex(), core.p.log.LastTerm()));
    if forall x :: config.IsVoter(x) ==> x == core.id {
      NobodyCanvassed(core', VoteRequest(core.p.log.LastIndex(), core.p.log.LastTerm()));
    }
    if Sole(config, core.id) {
      SoleVotes(config, core.id);
      LeaderStarts(core');
      var (node, e) := BecomeLeader(core');
      StartsUnsaved(core', node, e);
      var all := CandidateRole.New(core).2.Merge(e);
      assert all.(persist := false) == e;
    } else {
      hide Core.EffectiveConfig;
    }
  }

  lemma StartsUnsaved(core: Core, node: Node, e: Effects)
    requires Starts(core, node, e)
    ensures !e.persist
  {
  }

  lemma SoleVotes(c: Configuration, id: NodeId)
    requires Sole(c, id)
    ensures c.IsVoter(id)
  {
  }

  lemma NobodyCanvassed(core: Core, body: MessageBody)
    requires forall x :: core.EffectiveConfig().IsVoter(x) ==> x == core.id
    ensures Canvasses(core, body, [])
  {
  }

  lemma CandidatePreCampaigns(core: Core, role: Role)
    requires core.p.log.Contiguous()
    ensures var (node, e) := ApplyTransition(core, role, ToPreCandidate); PreCampaigns(core, node, e)
  {
    hide BecomeCandidate, Campaigns, Log.LastIndex, Log.LastTerm, Log.Contiguous, Configuration.HasQuorum, Without,
         Sole, Configuration.VoterCount, Configuration.IsVoter, Configuration.Voters, CandidateRole.Requests, Canvasses,
         Core.EffectiveConfig;
    var config := core.EffectiveConfig();
    var ask := PreVoteRequest(core.p.term + 1, core.p.log.LastIndex(), core.p.log.LastTerm());
    SoleIff(config, core.id);
    RequestsCanvass(core, ask);
    if forall x :: config.IsVoter(x) ==> x == core.id {
      NobodyCanvassed(core, ask);
    }
    if Sole(config, core.id) {
      SoleVotes(config, core.id);
      CandidateCampaigns(core);
      var (_, e) := BecomeCandidate(core);
      assert NO_EFFECTS.Merge(e) == e;
    }
  }

  /** A deadline that passes starts a campaign or, first, a pre-campaign. */
  lemma DeadlinePasses(node: Node)
    requires !node.role.Leader? && node.core.p.log.Contiguous()
    ensures var (node', e) := StepEvent(node, Tick(true));
            if node.role.Candidate? || (node.role.Follower? && !node.core.opts.prevote)
              then Campaigns(node.core, node', e)
            else PreCampaigns(node.core, node', e)
  {
    hide BecomeCandidate, PreCandidateRole.New, PreCandidateRole.HasQuorum, Campaigns, PreCampaigns, Log.Contiguous;
    CandidateCampaigns(node.core);
    CandidatePreCampaigns(node.core, node.role);
    var (_, e) := BecomeCandidate(node.core);
    assert NO_EFFECTS.Merge(e) == e;
    var (_, e') := ApplyTransition(node.core, node.role, ToPreCandidate);
    assert NO_EFFECTS.Merge(e') == e';
  }

  /** A server that is told to campaign does so in the next term, with no pre-campaign, unless it
      is told in an older one. */
  lemma ToldToCampaign(node: Node, m: Message, recent: bool)
    requires node.role.Follower? && m.body.TimeoutNow? && node.core.p.log.Contiguous()
    ensures var ((node', e), p) := (StepEvent(node, Receive(m, recent)), node.core.p);
            if m.term < p.term then node' == node && e == NO_EFFECTS
            else var p' := p.(term := m.term, votedFor := if m.term > p.term then None else p.votedFor);
                 Campaigns(node.core.(p := p'), node', e)
  {
    hide BecomeCandidate, Campaigns, Log.Contiguous, Core.EffectiveConfig;
    var core := node.core.MaybeUpdateTerm(m.term);
    CandidateCampaigns(core);
    var (node', e) := BecomeCandidate(core);
    CampaignSaved(core, node', e);
    assert NO_EFFECTS.Merge(e) == e;
    assert NO_EFFECTS.WithPersist().Merge(e) == e;
  }

  lemma CampaignSaved(core: Core, node: Node, e: Effects)
    requires Campaigns(core, node, e)
    ensures e.persist
  {
  }

  lemma CandidateTold(node: Node, m: Message, recent: bool)
    requires (node.role.Candidate? || node.role.PreCandidate?) && m.body.TimeoutNow? && m.term == node.core.p.term
    requires node.core.p.log.Contiguous()
    ensures var (node', e) := StepEvent(node, Receive(m, recent)); Campaigns(node.core, node', e)
  {
    hide BecomeCandidate, Campaigns, Log.Contiguous, Core.EffectiveConfig;
    CandidateCampaigns(node.core);
    var (_, e) := BecomeCandidate(node.core);
    assert NO_EFFECTS.Merge(e) == e;
  }

  // ----- Votes that come in -----

  /** A vote that is granted counts for its sender, and a majority of every set of voters makes
      the candidate lead. */
  lemma VoteCounted(node: Node, m: Message, recent: bool)
    requires node.role.Candidate? && m.body.VoteResponse? && m.term == node.core.p.term && node.core.p.log.Contiguous()
    ensures var (node', e) := StepEvent(node, Receive(m, recent));
            var votes := node.role.votes + {m.from};
            if !m.body.granted then node' == node && e == NO_EFFECTS
            else if node.core.EffectiveConfig().HasQuorum(votes) then Starts(node.core, node', e)
            else node' == Node(node.core, Candidate(votes)) && e == NO_EFFECTS
  {
    NoMore();
    hide BecomeLeader, Starts, Log.Contiguous, Core.EffectiveConfig, Configuration.HasQuorum;
    LeaderStarts(node.core);
    var (_, e) := BecomeLeader(node.core);
    assert NO_EFFECTS.Merge(e) == e;
  }

  /** A pre-vote that is granted in this term counts likewise, and a majority starts the campaign; an
      answer from a newer term ends the pre-campaign, and any other changes nothing. */
  lemma PreVoteCounted(node: Node, m: Message, recent: bool)
    requires node.role.PreCandidate? && m.body.PreVoteResponse? && m.term <= node.core.p.term
    requires node.core.p.log.Contiguous()
    ensures var (node', e) := StepEvent(node, Receive(m, recent));
            var (p, votes) := (node.core.p, node.role.preVotes + {m.from});
            if m.body.responderTerm > p.term
              then && node' == Node(node.core.(p := p.(term := m.body.responderTerm, votedFor := None)), Follower(None))
                   && e == Effects(true, [], [])
            else if m.body.responderTerm < p.term || !m.body.preGranted then node' == node && e == NO_EFFECTS
            else if node.core.EffectiveConfig().HasQuorum(votes) then Campaigns(node.core, node', e)
            else node' == Node(node.core, PreCandidate(votes)) && e == NO_EFFECTS
  {
    NoMore();
    hide BecomeCandidate, Campaigns, Log.Contiguous, Core.EffectiveConfig, Configuration.HasQuorum;
    CandidateCampaigns(node.core);
    var (_, e) := BecomeCandidate(node.core);
    assert NO_EFFECTS.Merge(e) == e;
  }

  // ----- Handing over -----

  /** A leader tells another server to campaign exactly if that is a voter known to have the whole
      log. */
  lemma TransferIff(node: Node, target: NodeId)
    ensures TransferLeadership(node, target) ==
            if node.role.Leader? && target != node.core.id && node.core.EffectiveConfig().IsVoter(target)
               && node.role.state.MatchOf(target) >= node.core.p.log.LastIndex()
            then Some(Just(Message(node.core.id, target, node.core.p.term, TimeoutNow))) else None
  {
    JustOne();
  }
}
