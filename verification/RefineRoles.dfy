/** Role by role: what an event makes of a node is reachable by protocol steps. */
module RefineRoles {
  import opened Types
  import opened Membership
  import opened RaftLog
  import opened Event
  import opened RaftCore
  import FollowerRole
  import PreCandidateRole
  import CandidateRole
  import LeaderRole
  import opened RaftNode
  import opened Merging
  import opened Refinement
  import P = Protocol

  function Msgs(effects: Effects): set<Message> {
    set m | m in effects.messages
  }

  lemma MsgsMerge(a: Effects, b: Effects)
    ensures Msgs(a.Merge(b)) == Msgs(a) + Msgs(b)
  {
  }

  /** The request is numbered just past a prefix the log has, unless it carries nothing. */
  ghost predicate Acceptable(log: Log, req: MessageBody)
    requires req.AppendRequest?
  {
    FollowerRole.PrevMatches(log, req) && req.entries != [] ==>
      req.prevLogIndex <= |log.entries| && Follows(req.entries, req.prevLogIndex)
  }

  /** The log that a successful acknowledgement of `req` reports is a prefix of the log of
      the leader of its term, if such logs are given. */
  predicate Honest(lead: Option<P.LeaderLogs>, log: Log, term: Term, req: MessageBody)
    requires req.AppendRequest?
  {
    lead.Some? && FollowerRole.PrevMatches(log, req) ==>
      term in lead.value && FollowerRole.Merge(log, req.entries).entries <= lead.value[term]
  }

  /** The target of a refinement: reachable, sending exactly the effects' messages, with the
      fixed parts of the state untouched. */
  ghost predicate Refined(lead: Option<P.LeaderLogs>, voters: set<NodeId>, net: set<Message>, core: Core, role: Role,
                          core': Core, role': Role, effects: Effects)
  {
    && Reaches(lead, voters, net, core.id, View(core, role), View(core', role'), net + Msgs(effects))
    && effects.sendSnapshots == []
    && SameShape(core, core')
    && RoleOk(voters, role')
  }

  // ----- Follower -----

  lemma QuietRefined(lead: Option<P.LeaderLogs>, voters: set<NodeId>, net: set<Message>, core: Core, role: Role,
                     role': Role, effects: Effects)
    requires ViewPhase(role') == ViewPhase(role) && RoleOk(voters, role')
    requires effects.sendSnapshots == [] && forall m :: m in effects.messages ==> P.Harmless(m)
    ensures Refined(lead, voters, net, core, role, core, role', effects)
  {
    Via(lead, voters, net, core.id, View(core, role), P.Quiet(Msgs(effects)), View(core, role'), Msgs(effects));
  }

  lemma RaiseRefined(lead: Option<P.LeaderLogs>, voters: set<NodeId>, net: set<Message>, core: Core, role: Role,
                     term: Term, role': Role)
    requires term > core.p.term && ViewPhase(role') == P.Idle && RoleOk(voters, role')
    ensures Refined(lead, voters, net, core, role, core.MaybeUpdateTerm(term), role', NO_EFFECTS)
  {
    Via(lead, voters, net, core.id, View(core, role), P.Raise(term), View(core.MaybeUpdateTerm(term), role'), {});
    assert net + {} == net + Msgs(NO_EFFECTS);
  }

  lemma RefinedThen(lead: Option<P.LeaderLogs>, voters: set<NodeId>, net: set<Message>, c0: Core, r0: Role, c1: Core,
                    r1: Role, e1: Effects,
                    c2: Core, r2: Role, e2: Effects)
    requires Refined(lead, voters, net, c0, r0, c1, r1, e1)
    requires Refined(lead, voters, net + Msgs(e1), c1, r1, c2, r2, e2)
    requires r1.Leader? ==> r2.Leader? && c2.p.term == c1.p.term
    ensures Refined(lead, voters, net, c0, r0, c2, r2, e1.Merge(e2))
  {
    hide Reaches;
    MsgsMerge(e1, e2);
    assert net + Msgs(e1) + Msgs(e2) == net + (Msgs(e1) + Msgs(e2));
    ReachesThen(lead, voters, net, c0.id, View(c0, r0), View(c1, r1), net + Msgs(e1), View(c2, r2),
                net + Msgs(e1) + Msgs(e2));
  }

  /** Only the messages count, not the persistence flag. */
  lemma RefinedFlag(lead: Option<P.LeaderLogs>, voters: set<NodeId>, net: set<Message>, c0: Core, r0: Role, c1: Core,
                    r1: Role, e: Effects, e': Effects)
    requires Refined(lead, voters, net, c0, r0, c1, r1, e)
    requires e'.messages == e.messages && e'.sendSnapshots == e.sendSnapshots
    ensures Refined(lead, voters, net, c0, r0, c1, r1, e')
  {
    hide Reaches;
    assert Msgs(e') == Msgs(e);
  }

  lemma HandleVoteRefined(lead: Option<P.LeaderLogs>, voters: set<NodeId>, net: set<Message>, core: Core, role: Role,
                          m: Message)
    requires CoreOk(voters, core) && role.Follower? && m.body.VoteRequest? && m in net && m.term == core.p.term
    ensures var r := FollowerRole.HandleVote(core, role, m.from, m.body);
            Refined(lead, voters, net, core, role, r.core, r.role, r.effects)
  {
    PlainQueries(core.p.log);
    var r := FollowerRole.HandleVote(core, role, m.from, m.body);
    var reply := r.effects.messages[0];
    assert r.effects.messages == [reply];
    assert Msgs(r.effects) == {reply};
    if reply.body.granted {
      Via(lead, voters, net, core.id, View(core, role), P.Grant(m), View(r.core, r.role), {reply});
    } else {
      QuietRefined(lead, voters, net, core, role, role, r.effects);
    }
  }

  lemma HandleAppendRefined(lead: Option<P.LeaderLogs>, voters: set<NodeId>, net: set<Message>, core: Core, role: Role,
                            m: Message)
    requires CoreOk(voters, core) && role.Follower? && m.body.AppendRequest? && m in net && m.term == core.p.term
    requires Acceptable(core.p.log, m.body) && Honest(lead, core.p.log, m.term, m.body)
    ensures var r := FollowerRole.HandleAppend(core, m.from, m.body);
            Refined(lead, voters, net, core, role, r.core, r.role, r.effects)
  {
    hide FollowerRole.Merge, P.MergeAt, FollowerRole.MergePersists;
    PlainQueries(core.p.log);
    var r := FollowerRole.HandleAppend(core, m.from, m.body);
    if !FollowerRole.PrevMatches(core.p.log, m.body) {
      QuietRefined(lead, voters, net, core, role, r.role, r.effects);
    } else {
      MergedLog(core.p.log, m.body);
      var merged := FollowerRole.Merge(core.p.log, m.body.entries);
      var reply := r.effects.messages[0];
      assert r.effects.messages == [reply] && Msgs(r.effects) == {reply};
      AcceptVia(lead, voters, net, core, role, m, r, reply);
    }
  }

  lemma MergedLog(log: Log, req: MessageBody)
    requires Plain(log) && req.AppendRequest? && Acceptable(log, req) && FollowerRole.PrevMatches(log, req)
    ensures var merged := FollowerRole.Merge(log, req.entries);
            && merged == log.(entries := P.MergeAt(log.entries, req.prevLogIndex, req.entries))
            && merged.LastIndex() == |merged.entries|
            && merged.LastTerm() == P.LastTerm(merged.entries)
  {
    if req.entries == [] {
      assert FollowerRole.Merge(log, req.entries) == log;
      PlainQueries(log);
    } else {
      MergeIsMergeAt(log, req.prevLogIndex, req.entries);
      MergeAtPlain(log, req.prevLogIndex, req.entries);
      PlainQueries(FollowerRole.Merge(log, req.entries));
    }
  }

  lemma AcceptVia(lead: Option<P.LeaderLogs>, voters: set<NodeId>, net: set<Message>, core: Core, role: Role,
                  m: Message, r: StepResult, reply: Message)
    requires Plain(core.p.log) && role.Follower? && m.body.AppendRequest? && m in net && m.term == core.p.term
    requires FollowerRole.PrevMatches(core.p.log, m.body)
    requires Honest(lead, core.p.log, m.term, m.body)
    requires r == FollowerRole.HandleAppend(core, m.from, m.body) && r.effects.messages == [reply]
    requires var merged := FollowerRole.Merge(core.p.log, m.body.entries);
             && merged == core.p.log.(entries := P.MergeAt(core.p.log.entries, m.body.prevLogIndex, m.body.entries))
             && merged.LastIndex() == |merged.entries|
             && merged.LastTerm() == P.LastTerm(merged.entries)
    ensures Refined(lead, voters, net, core, role, r.core, r.role, r.effects)
  {
    hide FollowerRole.Merge, P.MergeAt, FollowerRole.MergePersists, Reaches;
    PlainQueries(core.p.log);
    assert Msgs(r.effects) == {reply};
    Via(lead, voters, net, core.id, View(core, role), P.Accept(m), View(r.core, r.role), {reply});
  }

  lemma HandleReadRefined(lead: Option<P.LeaderLogs>, voters: set<NodeId>, net: set<Message>, core: Core, role: Role,
                          role': Role, m: Message, effects: Effects)
    requires m.body.ReadIndexRequest? && m in net && m.term <= core.p.term
    requires ViewPhase(role') == ViewPhase(role) && RoleOk(voters, role')
    requires effects == NO_EFFECTS.WithMessage(core.Reply(m.from, ReadIndexResponse(m.body.readId, m.body.readIndex)))
    ensures Refined(lead, voters, net, core, role, core, role', effects)
  {
    var reply := core.Reply(m.from, ReadIndexResponse(m.body.readId, m.body.readIndex));
    assert Msgs(effects) == {reply};
    Via(lead, voters, net, core.id, View(core, role), P.ReplyRead(m), View(core, role'), {reply});
  }

  lemma HandleCurrentRefined(lead: Option<P.LeaderLogs>, voters: set<NodeId>, net: set<Message>, core: Core,
                             role: Role, m: Message)
    requires CoreOk(voters, core) && role.Follower? && m in net && m.term == core.p.term
    requires m.body.AppendRequest? ==> Acceptable(core.p.log, m.body) && Honest(lead, core.p.log, m.term, m.body)
    ensures var r := FollowerRole.HandleCurrent(core, role, m);
            Refined(lead, voters, net, core, role, r.core, r.role, r.effects)
  {
    hide Refined, FollowerRole.HandleAppend, FollowerRole.HandleVote;
    match m.body
    case VoteRequest(_, _) => HandleVoteRefined(lead, voters, net, core, role, m);
    case AppendRequest(_, _, _, _) => HandleAppendRefined(lead, voters, net, core, role, m);
    case ReadIndexRequest(_, _) =>
      var r := FollowerRole.HandleCurrent(core, role, m);
      HandleReadRefined(lead, voters, net, core, role, r.role, m, r.effects);
    case _ => QuietRefined(lead, voters, net, core, role, role, NO_EFFECTS);
  }

  /** What a follower does with a message whose term it is not behind. */
  lemma FollowerRefined(lead: Option<P.LeaderLogs>, voters: set<NodeId>, net: set<Message>, core: Core, role: Role,
                        m: Message, recent: bool)
    requires CoreOk(voters, core) && role.Follower? && m in net
    requires m.body.AppendRequest? && m.term >= core.p.term ==>
               Acceptable(core.p.log, m.body) && Honest(lead, core.p.log, m.term, m.body)
    ensures var r := FollowerRole.HandleMessage(core, role, m, recent);
            Refined(lead, voters, net, core, role, r.core, r.role, r.effects)
  {
    hide Refined, FollowerRole.HandleCurrent, CoreOk;
    var r := FollowerRole.HandleMessage(core, role, m, recent);
    if ((m.body.VoteRequest? || m.body.PreVoteRequest?) && role.leader.Some? && recent) || m.body.PreVoteRequest? {
      QuietRefined(lead, voters, net, core, role, role, r.effects);
    } else if m.term < core.p.term {
      if m.body.ReadIndexRequest? {
        HandleReadRefined(lead, voters, net, core, role, role, m, r.effects);
      } else {
        QuietRefined(lead, voters, net, core, role, role, r.effects);
      }
    } else if m.term == core.p.term {
      HandleCurrentRefined(lead, voters, net, core, role, m);
    } else {
      FollowerRaises(lead, voters, net, core, role, m, recent);
    }
  }

  lemma FollowerRaises(lead: Option<P.LeaderLogs>, voters: set<NodeId>, net: set<Message>, core: Core, role: Role,
                       m: Message, recent: bool)
    requires CoreOk(voters, core) && role.Follower? && m in net && m.term > core.p.term && !m.body.PreVoteRequest?
    requires !(m.body.VoteRequest? && role.leader.Some? && recent)
    requires m.body.AppendRequest? ==> Acceptable(core.p.log, m.body) && Honest(lead, core.p.log, m.term, m.body)
    ensures var r := FollowerRole.HandleMessage(core, role, m, recent);
            Refined(lead, voters, net, core, role, r.core, r.role, r.effects)
  {
    hide Refined, FollowerRole.HandleCurrent;
    var core' := core.MaybeUpdateTerm(m.term);
    var role' := if m.body.AppendRequest? || m.body.ReadIndexRequest? then Follower(Some(m.from)) else role;
    RaiseRefined(lead, voters, net, core, role, m.term, role');
    assert net + Msgs(NO_EFFECTS) == net;
    HandleCurrentRefined(lead, voters, net, core', role', m);
    var done := FollowerRole.HandleCurrent(core', role', m);
    RefinedThen(lead, voters, net, core, role, core', role', NO_EFFECTS, done.core, done.role, done.effects);
    RefinedFlag(lead, voters, net, core, role, done.core, done.role, NO_EFFECTS.Merge(done.effects),
                done.effects.WithPersist());
  }

  // ----- Pre-candidate and candidate -----

  lemma PreCandidateRefined(lead: Option<P.LeaderLogs>, voters: set<NodeId>, net: set<Message>, core: Core, role: Role,
                            m: Message, recent: bool)
    requires role.PreCandidate?
    ensures var r := PreCandidateRole.HandleMessage(core, role, m, recent);
            Refined(lead, voters, net, core, role, r.core, r.role, r.effects)
  {
    hide Refined, PreCandidateRole.HasQuorum;
    var r := PreCandidateRole.HandleMessage(core, role, m, recent);
    if r.core != core {
      RaiseRefined(lead, voters, net, core, role, r.core.p.term, r.role);
      RefinedFlag(lead, voters, net, core, role, r.core, r.role, NO_EFFECTS, r.effects);
    } else {
      QuietRefined(lead, voters, net, core, role, r.role, r.effects);
    }
  }

  /** A candidate that hears of a newer term steps down at once; the role change that the
      node then makes is part of the same protocol step. */
  lemma CandidateRefined(lead: Option<P.LeaderLogs>, voters: set<NodeId>, net: set<Message>, core: Core, role: Role,
                         m: Message, recent: bool)
    requires role.Candidate? && m in net && m.to == core.id
    ensures var r := CandidateRole.HandleMessage(core, role, m, recent);
            && (r.core == core ==> Refined(lead, voters, net, core, role, r.core, r.role, r.effects))
            && (r.core != core ==>
                  && r.transition.ToFollower?
                  && Refined(lead, voters, net, core, role, r.core, Follower(r.transition.leader), r.effects))
  {
    hide Refined, CandidateRole.HasQuorum;
    var r := CandidateRole.HandleMessage(core, role, m, recent);
    if r.core != core {
      RaiseRefined(lead, voters, net, core, role, m.term, Follower(r.transition.leader));
      RefinedFlag(lead, voters, net, core, role, r.core, Follower(r.transition.leader), NO_EFFECTS, r.effects);
    } else if r.role != role {
      CountVoteRefined(lead, voters, net, core, role, m);
    } else {
      QuietRefined(lead, voters, net, core, role, role, r.effects);
    }
  }

  lemma CountVoteRefined(lead: Option<P.LeaderLogs>, voters: set<NodeId>, net: set<Message>, core: Core, role: Role,
                         m: Message)
    requires role.Candidate? && m in net && m.to == core.id && m.term == core.p.term && m.body == VoteResponse(true)
    ensures Refined(lead, voters, net, core, role, core, Candidate(role.votes + {m.from}), NO_EFFECTS)
  {
    Via(lead, voters, net, core.id, View(core, role), P.CountVote(m), View(core, Candidate(role.votes + {m.from})), {});
    assert net + {} == net + Msgs(NO_EFFECTS);
  }

  // ----- Role changes -----

  lemma StepDownRefined(lead: Option<P.LeaderLogs>, voters: set<NodeId>, net: set<Message>, core: Core, role: Role,
                        role': Role)
    requires ViewPhase(role') == P.Idle && RoleOk(voters, role')
    ensures Refined(lead, voters, net, core, role, core, role', NO_EFFECTS)
  {
    Via(lead, voters, net, core.id, View(core, role), P.Rest(false), View(core, role'), {});
    assert net + {} == net + Msgs(NO_EFFECTS);
  }

  /** Every append request a leader sends describes its own log. */
  lemma AppendForReplicates(voters: set<NodeId>, core: Core, next: LogIndex, to: NodeId, role: Role)
    requires CoreOk(voters, core) && next >= 1
    ensures P.Replicates(LeaderRole.AppendFor(core, next, to), core.id, View(core, role))
  {
    PlainQueries(core.p.log);
    var log := core.p.log;
    var batch := LeaderRole.Batch(core, next);
    if batch != [] {
      var e := Min(Min(next + core.opts.maxEntriesPerMsg, |log.entries| + 1), |log.entries|);
      assert batch == log.entries[next - 1..e];
    }
  }

  lemma SendRefined(voters: set<NodeId>, core: Core, state: LeaderState, to: NodeId, role: Role)
    requires CoreOk(voters, core) && RoleOk(voters, Leader(state))
    ensures var (state', effects) := LeaderRole.SendAppendTo(core, state, to);
            && effects.sendSnapshots == [] && !effects.persist
            && (forall m :: m in effects.messages ==> P.Replicates(m, core.id, View(core, role)))
            && RoleOk(voters, Leader(state'))
            && state'.(nextIndex := state.nextIndex) == state
  {
    hide P.Replicates, CoreOk, LeaderRole.AppendFor, LeaderRole.Batch;
    assert core.p.log.snapshotIndex == 0 by { NoSnapshotIndex(voters, core); }
    AppendForReplicates(voters, core, state.NextOf(to), to, role);
  }

  lemma NoSnapshotIndex(voters: set<NodeId>, core: Core)
    requires CoreOk(voters, core)
    ensures core.p.log.snapshotIndex == 0
  {
  }

  lemma {:induction false} SendManyRefined(voters: set<NodeId>, core: Core, state: LeaderState, peers: seq<NodeId>,
                                           k: nat, role: Role)
    requires CoreOk(voters, core) && RoleOk(voters, Leader(state)) && k <= |peers|
    ensures var (state', effects) := LeaderRole.SendToFirst(core, state, peers, k);
            && effects.sendSnapshots == [] && !effects.persist
            && (forall m :: m in effects.messages ==> P.Replicates(m, core.id, View(core, role)))
            && RoleOk(voters, Leader(state'))
            && state'.(nextIndex := state.nextIndex) == state
  {
    hide P.Replicates, CoreOk, LeaderRole.SendAppendTo;
    if k > 0 {
      SendManyRefined(voters, core, state, peers, k - 1, role);
      var (state', _) := LeaderRole.SendToFirst(core, state, peers, k - 1);
      SendRefined(voters, core, state', peers[k - 1], role);
    }
  }

  lemma BroadcastRefined(lead: Option<P.LeaderLogs>, voters: set<NodeId>, net: set<Message>, core: Core,
                         state: LeaderState)
    requires CoreOk(voters, core) && RoleOk(voters, Leader(state))
    ensures var (state', effects) := LeaderRole.BroadcastAppend(core, state);
            Refined(lead, voters, net, core, Leader(state), core, Leader(state'), effects)
  {
    hide P.Replicates, CoreOk, LeaderRole.SendToFirst;
    var peers := Without(core.EffectiveConfig().AllNodes(), core.id);
    SendManyRefined(voters, core, state, peers, |peers|, Leader(state));
    var (state', effects) := LeaderRole.BroadcastAppend(core, state);
    Via(lead, voters, net, core.id, View(core, Leader(state)), P.Send(Msgs(effects)), View(core, Leader(state')),
        Msgs(effects));
  }

  lemma WinRefined(lead: Option<P.LeaderLogs>, voters: set<NodeId>, net: set<Message>, core: Core, votes: set<NodeId>)
    requires CoreOk(voters, core) && P.Majority(voters, votes)
    ensures Refined(lead, voters, net, core, Candidate(votes), core, Leader(LeaderRole.Start(core)), NO_EFFECTS)
    ensures LeaderRole.New(core) == LeaderRole.BroadcastAppend(core, LeaderRole.Start(core))
  {
    hide LeaderRole.BroadcastAppend, P.Majority;
    PlainQueries(core.p.log);
    var state := LeaderRole.Start(core);
    Via(lead, voters, net, core.id, View(core, Candidate(votes)), P.Win(state.matchIndex), View(core, Leader(state)),
        {});
    assert net + {} == net + Msgs(NO_EFFECTS);
  }

  lemma BecomeLeaderRefined(lead: Option<P.LeaderLogs>, voters: set<NodeId>, net: set<Message>, core: Core,
                            votes: set<NodeId>)
    requires CoreOk(voters, core) && P.Majority(voters, votes)
    ensures var (node, effects) := BecomeLeader(core);
            && node.core == core
            && Refined(lead, voters, net, core, Candidate(votes), core, node.role, effects)
  {
    WinRefined(lead, voters, net, core, votes);
    assert RoleOk(voters, Leader(LeaderRole.Start(core)));
    hide LeaderRole.BroadcastAppend, LeaderRole.New, Refined, LeaderRole.Start, CoreOk, P.Majority;
    assert net + Msgs(NO_EFFECTS) == net;
    BroadcastRefined(lead, voters, net, core, LeaderRole.Start(core));
    var (state, effects) := LeaderRole.BroadcastAppend(core, LeaderRole.Start(core));
    RefinedThen(lead, voters, net, core, Candidate(votes), core, Leader(LeaderRole.Start(core)), NO_EFFECTS, core,
                Leader(state), effects);
    RefinedFlag(lead, voters, net, core, Candidate(votes), core, Leader(state), NO_EFFECTS.Merge(effects), effects);
  }

  lemma CampaignShape(voters: set<NodeId>, core: Core)
    requires CoreOk(voters, core)
    ensures var (core', role', effects) := CandidateRole.New(core);
            && core' == core.(p := core.p.(term := core.p.term + 1, votedFor := Some(core.id)))
            && role' == Candidate({core.id})
            && effects.sendSnapshots == []
            && effects.messages ==
                 if |voters| == 1 then []
                 else CandidateRole.Requests(core', Without(Simple(voters, {}).Voters(), core.id),
                        VoteRequest(core.p.log.LastIndex(), core.p.log.LastTerm()))
  {
    FixedConfig(voters, core);
    FixedConfig(voters, core.StartElection());
  }

  lemma CampaignRefined(lead: Option<P.LeaderLogs>, voters: set<NodeId>, net: set<Message>, core: Core, role: Role)
    requires CoreOk(voters, core)
    ensures var (core', role', effects) := CandidateRole.New(core);
            && role' == Candidate({core.id})
            && CoreOk(voters, core')
            && Refined(lead, voters, net, core, role, core', role', effects)
  {
    hide CandidateRole.New, CandidateRole.Requests, Without;
    PlainQueries(core.p.log);
    CampaignShape(voters, core);
    var (core', role', effects) := CandidateRole.New(core);
    var peers := if |voters| == 1 then {} else voters - {core.id};
    CampaignMessages(voters, core', peers, effects);
    var sv, sv' := View(core, role), View(core', role');
    Via(lead, voters, net, core.id, sv, P.Campaign(peers), sv', Msgs(effects));
  }

  lemma CampaignMessages(voters: set<NodeId>, core: Core, peers: set<NodeId>, effects: Effects)
    requires core.id in voters && peers == if |voters| == 1 then {} else voters - {core.id}
    requires var body := VoteRequest(core.p.log.LastIndex(), core.p.log.LastTerm());
             effects.messages ==
               if |voters| == 1 then []
               else CandidateRole.Requests(core, Without(Simple(voters, {}).Voters(), core.id), body)
    ensures Msgs(effects)
         == P.VoteRequests(core.id, peers, core.p.term, core.p.log.LastIndex(), core.p.log.LastTerm())
  {
    var body := VoteRequest(core.p.log.LastIndex(), core.p.log.LastTerm());
    var to := Without(Simple(voters, {}).Voters(), core.id);
    if |voters| != 1 {
      forall p | p in peers ensures core.Reply(p, body) in effects.messages {
        assert p in to;
        var k :| 0 <= k < |to| && to[k] == p;
        assert effects.messages[k] == core.Reply(p, body);
      }
      forall m | m in effects.messages ensures m.to in peers && m == core.Reply(m.to, body) {
        var k :| 0 <= k < |to| && effects.messages[k] == m;
        assert to[k] in to;
      }
    }
  }

  lemma BecomeCandidateRefined(lead: Option<P.LeaderLogs>, voters: set<NodeId>, net: set<Message>, core: Core,
                               role: Role)
    requires CoreOk(voters, core)
    ensures var (node, effects) := BecomeCandidate(core);
            Refined(lead, voters, net, core, role, node.core, node.role, effects)
  {
    hide Refined, LeaderRole.BroadcastAppend, LeaderRole.New, CandidateRole.New;
    CampaignRefined(lead, voters, net, core, role);
    var (core', role', effects) := CandidateRole.New(core);
    FixedConfig(voters, core');
    if CandidateRole.HasQuorum(core', role'.votes) {
      BecomeLeaderRefined(lead, voters, net + Msgs(effects), core', role'.votes);
      var (node, more) := BecomeLeader(core');
      RefinedThen(lead, voters, net, core, role, core', role', effects, core', node.role, more);
    }
  }

  lemma BecomePreCandidateRefined(lead: Option<P.LeaderLogs>, voters: set<NodeId>, net: set<Message>, core: Core,
                                  role: Role)
    requires CoreOk(voters, core)
    ensures var (role', effects) := PreCandidateRole.New(core);
            role'.PreCandidate? && Refined(lead, voters, net, core, role, core, role', effects)
  {
    hide Refined;
    var (role', effects) := PreCandidateRole.New(core);
    StepDownRefined(lead, voters, net, core, role, role');
    assert net + Msgs(NO_EFFECTS) == net;
    QuietRefined(lead, voters, net, core, role', role', effects);
    RefinedThen(lead, voters, net, core, role, core, role', NO_EFFECTS, core, role', effects);
    RefinedFlag(lead, voters, net, core, role, core, role', NO_EFFECTS.Merge(effects), effects);
  }

  lemma TransitionRefined(lead: Option<P.LeaderLogs>, voters: set<NodeId>, net: set<Message>, core: Core, role: Role,
                          transition: Transition)
    requires CoreOk(voters, core) && RoleOk(voters, role)
    requires transition.ToLeader? ==> role.Candidate? && P.Majority(voters, role.votes)
    ensures var (node, effects) := ApplyTransition(core, role, transition);
            Refined(lead, voters, net, core, role, node.core, node.role, effects)
  {
    hide Refined, BecomeCandidate, BecomeLeader, PreCandidateRole.New, CoreOk;
    match transition
    case Stay => QuietRefined(lead, voters, net, core, role, role, NO_EFFECTS);
    case ToFollower(leader) => StepDownRefined(lead, voters, net, core, role, Follower(leader));
    case ToFollowerAfterContact(leader) => StepDownRefined(lead, voters, net, core, role, Follower(leader));
    case ToPreCandidate =>
      BecomePreCandidateRefined(lead, voters, net, core, role);
      var (role', effects) := PreCandidateRole.New(core);
      var (node, more) := BecomeCandidate(core);
      BecomeCandidateRefined(lead, voters, net + Msgs(effects), core, role');
      RefinedThen(lead, voters, net, core, role, core, role', effects, node.core, node.role, more);
    case ToCandidate => BecomeCandidateRefined(lead, voters, net, core, role);
    case ToLeader => BecomeLeaderRefined(lead, voters, net, core, role.votes);
  }
}
