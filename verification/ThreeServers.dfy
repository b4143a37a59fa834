/** What one step makes of a node of a three-server cluster, for the steps of the concrete
    runs of this project. */
module ThreeServers {
  import opened Types
  import opened Membership
  import opened RaftLog
  import opened Event
  import opened RaftCore
  import FollowerRole
  import PreCandidateRole
  import CandidateRole
  import LeaderRole
  import opened RaftNode
  import opened Merging
  import opened Refinement
  import opened RefineRoles
  import opened RefineLeader
  import CommitLoop
  import P = Protocol

  const V: set<NodeId> := {1, 2, 3}
  /** The options of the node: pre-votes and pipelining, one entry for each message. */
  const O := Options(1, 1024, 64 * 1024 * 1024, true, false, true)

  function LogWith(entries: seq<Entry>): Log {
    Log(entries, 0, 0, None)
  }

  /** A server that has applied what it committed. */
  function Server(id: NodeId, term: Term, vote: Option<NodeId>, entries: seq<Entry>, commit: LogIndex,
                  role: Role): Node {
    Node(Core(id, O, Persistent(term, vote, LogWith(entries), Simple(V, {})), commit, commit), role)
  }

  /** Commands numbered from 1. */
  ghost predicate Commands(entries: seq<Entry>) {
    forall k :: 0 <= k < |entries| ==> entries[k].index == k + 1 && entries[k].term > 0 && entries[k].payload.Command?
  }

  lemma ServerOk(id: NodeId, term: Term, vote: Option<NodeId>, entries: seq<Entry>, commit: LogIndex, role: Role)
    requires id in V && Commands(entries)
    ensures var core := Server(id, term, vote, entries, commit, role).core;
            && CoreOk(V, core) && core.EffectiveConfig() == Simple(V, {})
            && core.p.log.LastIndex() == |entries| && core.p.log.LastTerm() == P.LastTerm(entries)
            && (forall i: nat :: core.p.log.TermAt(i) == P.TermAt(entries, i))
  {
    var core := Server(id, term, vote, entries, commit, role).core;
    FixedConfig(V, core);
    PlainQueries(core.p.log);
  }

  lemma Quorum(yes: set<NodeId>)
    ensures Simple(V, {}).HasQuorum(yes) <==> (1 in yes && 2 in yes) || (1 in yes && 3 in yes) || (2 in yes && 3 in yes)
  {
    assert |V| == 3;
    if 1 in yes && 2 in yes {
      TwoOf(1, 2, yes);
    } else if 1 in yes && 3 in yes {
      TwoOf(1, 3, yes);
    } else if 2 in yes && 3 in yes {
      TwoOf(2, 3, yes);
    } else {
      OneOf(if 1 in yes then 1 else if 2 in yes then 2 else 3, yes);
    }
  }

  lemma TwoOf(a: NodeId, b: NodeId, yes: set<NodeId>)
    requires a in V && b in V && a != b && a in yes && b in yes
    ensures |V * yes| >= 2
  {
    SubsetSize({a, b}, V * yes);
  }

  lemma OneOf(a: NodeId, yes: set<NodeId>)
    requires forall x :: x in V && x in yes ==> x == a
    ensures |V * yes| <= 1
  {
    SubsetSize(V * yes, {a});
  }

  // ----- Elections -----

  /** A follower that has waited long enough sounds out the others. */
  lemma Sounds(id: NodeId, term: Term, vote: Option<NodeId>, entries: seq<Entry>, commit: LogIndex,
               leader: Option<NodeId>, to: NodeId)
    requires id in V && Commands(entries) && to in V && to != id
    ensures var (node, effects) := StepEvent(Server(id, term, vote, entries, commit, Follower(leader)), Tick(true));
            && node == Server(id, term, vote, entries, commit, PreCandidate({id}))
            && !effects.persist && effects.sendSnapshots == []
            && Message(id, to, term, PreVoteRequest(term + 1, |entries|, P.LastTerm(entries))) in Msgs(effects)
  {
    hide PreCandidateRole.New, CandidateRole.New, LeaderRole.New, Server, Commands, CoreOk, Msgs,
        PreCandidateRole.HasQuorum;
    var core := Server(id, term, vote, entries, commit, Follower(leader)).core;
    ServerOk(id, term, vote, entries, commit, Follower(leader));
    ServerIs(id, term, vote, entries, commit, Follower(leader));
    SoundNode(core, to);
    var effects := PreCandidateRole.New(core).1;
    assert NO_EFFECTS.Merge(effects) == effects;
    OtherRole(id, term, vote, entries, commit, Follower(leader), PreCandidate({id}));
  }

  lemma OtherRole(id: NodeId, term: Term, vote: Option<NodeId>, entries: seq<Entry>, commit: LogIndex, role: Role,
                  role': Role)
    ensures Server(id, term, vote, entries, commit, role')
         == Node(Server(id, term, vote, entries, commit, role).core, role')
  {
  }

  /** A pre-election of one pre-vote so far. */
  lemma SoundNode(core: Core, to: NodeId)
    requires core.EffectiveConfig() == Simple(V, {}) && core.id in V && to in V && to != core.id
    ensures var (role, effects) := PreCandidateRole.New(core);
            && role == PreCandidate({core.id})
            && !effects.persist && effects.sendSnapshots == [] && !PreCandidateRole.HasQuorum(core, {core.id})
            && Message(core.id, to, core.p.term,
                       PreVoteRequest(core.p.term + 1, core.p.log.LastIndex(), core.p.log.LastTerm())) in Msgs(effects)
  {
    hide CandidateRole.Requests, Without, Configuration.Voters, Core.EffectiveConfig;
    Quorum({core.id});
    assert |V| == 3;
    RequestSent(core, PreVoteRequest(core.p.term + 1, core.p.log.LastIndex(), core.p.log.LastTerm()), to);
  }

  lemma RequestSent(core: Core, body: MessageBody, to: NodeId)
    requires to in V && to != core.id
    ensures core.Reply(to, body) in CandidateRole.Requests(core, Without(Simple(V, {}).Voters(), core.id), body)
  {
    var peers := Without(Simple(V, {}).Voters(), core.id);
    assert to in peers;
    var k :| 0 <= k < |peers| && peers[k] == to;
    assert CandidateRole.Requests(core, peers, body)[k] == core.Reply(to, body);
  }

  /** A follower of the same term answers a server whose log is up to date with a yes. */
  lemma Encourages(id: NodeId, term: Term, vote: Option<NodeId>, entries: seq<Entry>, commit: LogIndex,
                   leader: Option<NodeId>, m: Message)
    requires id in V && Commands(entries) && m.from in V && m.body.PreVoteRequest? && m.body.nextTerm > term
    requires m.body.preLastTerm > P.LastTerm(entries)
        || (m.body.preLastTerm == P.LastTerm(entries) && m.body.preLastIndex >= |entries|)
    ensures StepEvent(Server(id, term, vote, entries, commit, Follower(leader)), Receive(m, false))
         == (Server(id, term, vote, entries, commit, Follower(leader)),
             Effects(false, [Message(id, m.from, m.term, PreVoteResponse(term, true))], []))
  {
    ServerOk(id, term, vote, entries, commit, Follower(leader));
    var core, reply := Server(id, term, vote, entries, commit, Follower(leader)).core,
        Message(id, m.from, m.term, PreVoteResponse(term, true));
    assert PreVoteReply(core, m) == reply;
    assert NO_EFFECTS.messages + [reply] == [reply];
  }

  /** With one more pre-vote the server campaigns. */
  lemma Campaigns(id: NodeId, term: Term, vote: Option<NodeId>, entries: seq<Entry>, commit: LogIndex,
                  from: NodeId, to: NodeId)
    requires id in V && Commands(entries) && from in V && from != id && to in V && to != id
    ensures var m := Message(from, id, term, PreVoteResponse(term, true));
            var (node, effects) := StepEvent(Server(id, term, vote, entries, commit, PreCandidate({id})),
                                             Receive(m, false));
            && node == Server(id, term + 1, Some(id), entries, commit, Candidate({id}))
            && effects.persist && effects.sendSnapshots == []
            && Message(id, to, term + 1, VoteRequest(|entries|, P.LastTerm(entries))) in Msgs(effects)
  {
    hide CandidateRole.New, LeaderRole.New, Server, Commands, CoreOk, Msgs, CandidateRole.HasQuorum, P.VoteRequests;
    hide PreCandidateRole.HandleMessage;
    var core := Server(id, term, vote, entries, commit, PreCandidate({id})).core;
    ServerOk(id, term, vote, entries, commit, PreCandidate({id}));
    ServerIs(id, term, vote, entries, commit, PreCandidate({id}));
    LastPreVote(core, from);
    CampaignNode(core, to);
    var effects := CandidateRole.New(core).2;
    assert NO_EFFECTS.Merge(effects) == effects;
    NextTerm(id, term, vote, entries, commit);
  }

  lemma LastPreVote(core: Core, from: NodeId)
    requires core.EffectiveConfig() == Simple(V, {}) && core.id in V && from in V && from != core.id
    ensures PreCandidateRole.HandleMessage(core, PreCandidate({core.id}),
                                           Message(from, core.id, core.p.term, PreVoteResponse(core.p.term, true)),
                                           false)
         == StepResult(core, PreCandidate({core.id} + {from}), ToCandidate, NO_EFFECTS)
  {
    Quorum({core.id} + {from});
  }

  lemma NextTerm(id: NodeId, term: Term, vote: Option<NodeId>, entries: seq<Entry>, commit: LogIndex)
    ensures var core := Server(id, term, vote, entries, commit, PreCandidate({id})).core;
            Server(id, term + 1, Some(id), entries, commit, Candidate({id})) ==
            Node(core.(p := core.p.(term := term + 1, votedFor := Some(id))), Candidate({id}))
  {
  }

  /** An election of one vote so far. */
  lemma CampaignNode(core: Core, to: NodeId)
    requires CoreOk(V, core) && to in V && to != core.id
    ensures var (core', role', effects) := CandidateRole.New(core);
            && core' == core.(p := core.p.(term := core.p.term + 1, votedFor := Some(core.id)))
                && role' == Candidate({core.id})
            && effects.persist && effects.sendSnapshots == [] && !CandidateRole.HasQuorum(core', {core.id})
            && Message(core.id, to, core.p.term + 1,
                       VoteRequest(core.p.log.LastIndex(), core.p.log.LastTerm())) in Msgs(effects)
  {
    hide CandidateRole.New, CandidateRole.Requests, Without;
    CampaignShape(V, core);
    var (core', role', effects) := CandidateRole.New(core);
    FixedConfig(V, core');
    assert |V| == 3;
    CampaignMessages(V, core', V - {core.id}, effects);
    Quorum({core.id});
    NewPersists(core);
  }

  lemma NewPersists(core: Core)
    ensures CandidateRole.New(core).2.persist
  {
  }

  /** A vote of a newer term, asked by a candidate whose log is up to date. */
  lemma Votes(id: NodeId, term: Term, vote: Option<NodeId>, entries: seq<Entry>, commit: LogIndex,
              leader: Option<NodeId>, m: Message)
    requires id in V && Commands(entries) && m.from in V && m.body.VoteRequest? && m.term > term
    requires m.body.lastLogTerm > P.LastTerm(entries)
        || (m.body.lastLogTerm == P.LastTerm(entries) && m.body.lastLogIndex >= |entries|)
    ensures var (node, effects) := StepEvent(Server(id, term, vote, entries, commit, Follower(leader)),
                                             Receive(m, false));
            && node == Server(id, m.term, Some(m.from), entries, commit, Follower(leader))
            && effects == Effects(true, [Message(id, m.from, m.term, VoteResponse(true))], [])
  {
    ServerOk(id, m.term, None, entries, commit, Follower(leader));
  }

  lemma Wins(id: NodeId, term: Term, entries: seq<Entry>, commit: LogIndex, from: NodeId, to: NodeId)
    requires id in V && Commands(entries) && from in V && from != id && to in V && to != id
    ensures var m := Message(from, id, term, VoteResponse(true));
            var core := Server(id, term, Some(id), entries, commit, Candidate({id})).core;
            var (node, effects) := StepEvent(Server(id, term, Some(id), entries, commit, Candidate({id})),
                                             Receive(m, false));
            && node == Node(core, Leader(LeaderRole.Start(core)))
            && !effects.persist && effects.sendSnapshots == []
            && LeaderRole.AppendFor(core, |entries| + 1, to) in Msgs(effects)
  {
    hide LeaderRole.BroadcastAppend, LeaderRole.AppendFor, LeaderRole.Start, Server, Commands, Msgs,
        CandidateRole.HandleMessage, CoreOk;
    var core := Server(id, term, Some(id), entries, commit, Candidate({id})).core;
    ServerOk(id, term, Some(id), entries, commit, Candidate({id}));
    ServerIs(id, term, Some(id), entries, commit, Candidate({id}));
    LastVote(core, from);
    StartsAt(core);
    Broadcasts(core, LeaderRole.Start(core), to);
    var more := LeaderRole.BroadcastAppend(core, LeaderRole.Start(core)).1;
    assert NO_EFFECTS.Merge(more) == more;
  }

  lemma LastVote(core: Core, from: NodeId)
    requires core.EffectiveConfig() == Simple(V, {}) && core.id in V && from in V && from != core.id
    ensures CandidateRole.HandleMessage(core, Candidate({core.id}),
                                        Message(from, core.id, core.p.term, VoteResponse(true)), false)
         == StepResult(core, Candidate({core.id} + {from}), ToLeader, NO_EFFECTS)
  {
    Quorum({core.id} + {from});
  }

  lemma ServerIs(id: NodeId, term: Term, vote: Option<NodeId>, entries: seq<Entry>, commit: LogIndex, role: Role)
    ensures var node := Server(id, term, vote, entries, commit, role);
            && node.role == role && node.core.id == id && node.core.p.term == term && node.core.opts == O
            && node.core.p.log.snapshotIndex == 0 && node.core.commitIndex == commit
  {
  }

  /** The leader knows where every server is thought to be. */
  ghost predicate Tracking(state: LeaderState) {
    V <= state.nextIndex.Keys && forall id :: id in state.nextIndex ==> state.nextIndex[id] >= 1
  }

  lemma SameTracking(state: LeaderState, state': LeaderState)
    requires Tracking(state) && state'.nextIndex == state.nextIndex
    ensures Tracking(state')
  {
  }

  /** A new leader's first guess. */
  lemma StartsAt(core: Core)
    requires core.EffectiveConfig() == Simple(V, {})
    ensures Tracking(LeaderRole.Start(core))
    ensures forall id :: id in V ==> LeaderRole.Start(core).NextOf(id) == core.p.log.LastIndex() + 1
  {
    forall id | id in V ensures id in Simple(V, {}).AllNodes() {
    }
  }

  // ----- Replication -----

  /** Where a server is thought to be once it has been sent what comes next there: one entry
      more than the options say goes into a message. */
  function Beyond(next: LogIndex, last: LogIndex): LogIndex {
    if next > last then next else Min(next + 2, last + 1)
  }

  /** One request; the leader takes it for received. */
  lemma SendOne(core: Core, state: LeaderState, to: NodeId)
    requires core.opts == O && Plain(core.p.log) && Tracking(state) && to in V
    ensures var (state', effects) := LeaderRole.SendAppendTo(core, state, to);
            && effects == NO_EFFECTS.WithMessage(LeaderRole.AppendFor(core, state.NextOf(to), to))
            && state' == state.(nextIndex := state.nextIndex[to := Beyond(state.NextOf(to), |core.p.log.entries|)])
            && Tracking(state')
  {
    PlainQueries(core.p.log);
    var next, entries := state.NextOf(to), core.p.log.entries;
    if next <= |entries| {
      assert LeaderRole.Batch(core, next) == entries[next - 1..Beyond(next, |entries|) - 1];
    } else {
      assert LeaderRole.Batch(core, next) == [];
      assert state.nextIndex[to := next] == state.nextIndex;
    }
  }

  /** No two of them are the same server. */
  ghost predicate Distinct(ids: seq<NodeId>) {
    forall i, j :: 0 <= i < j < |ids| ==> ids[i] != ids[j]
  }

  lemma {:induction false} OthersDistinct(ids: seq<NodeId>, me: NodeId)
    requires Distinct(ids)
    ensures Distinct(Without(ids, me))
  {
    if ids != [] {
      var rest := Without(ids[1..], me);
      OthersDistinct(ids[1..], me);
      forall j | 0 <= j < |rest| ensures rest[j] != ids[0] {
        assert rest[j] in rest;
      }
    }
  }

  /** What has been sent and noted after the first `k` requests of a round. */
  lemma {:induction false} SendsTo(core: Core, state: LeaderState, peers: seq<NodeId>, k: nat)
    requires k <= |peers| && core.opts == O && Plain(core.p.log) && Tracking(state)
    requires Distinct(peers) && forall j :: 0 <= j < |peers| ==> peers[j] in V
    ensures var (state', effects) := LeaderRole.SendToFirst(core, state, peers, k);
            && !effects.persist && effects.sendSnapshots == []
            && state' == state.(nextIndex := state'.nextIndex) && Tracking(state')
            && (forall id :: id !in peers[..k] ==> state'.NextOf(id) == state.NextOf(id))
            && (forall id :: id in peers[..k] ==>
                  && state'.NextOf(id) == Beyond(state.NextOf(id), |core.p.log.entries|)
                  && LeaderRole.AppendFor(core, state.NextOf(id), id) in effects.messages)
            && ((forall id :: id in V ==> state.NextOf(id) > |core.p.log.entries|) ==> state' == state)
  {
    hide LeaderRole.AppendFor, LeaderRole.SendAppendTo, Plain;
    if k > 0 {
      SendsTo(core, state, peers, k - 1);
      var (state', effects) := LeaderRole.SendToFirst(core, state, peers, k - 1);
      var to := peers[k - 1];
      assert peers[..k] == peers[..k - 1] + [to] && to !in peers[..k - 1];
      SendOne(core, state', to);
      assert to in state'.nextIndex && state'.nextIndex[to := state'.NextOf(to)] == state'.nextIndex;
    }
  }

  /** A round of requests to the other two servers. */
  lemma Broadcasts(core: Core, state: LeaderState, to: NodeId)
    requires core.opts == O && Plain(core.p.log) && core.EffectiveConfig() == Simple(V, {}) && Tracking(state)
    requires to in V && to != core.id
    ensures var (state', effects) := LeaderRole.BroadcastAppend(core, state);
            && !effects.persist && effects.sendSnapshots == []
            && state' == state.(nextIndex := state'.nextIndex) && Tracking(state')
            && state'.NextOf(to) == Beyond(state.NextOf(to), |core.p.log.entries|)
            && LeaderRole.AppendFor(core, state.NextOf(to), to) in Msgs(effects)
            && ((forall id :: id in V ==> state.NextOf(id) > |core.p.log.entries|) ==> state' == state)
  {
    hide LeaderRole.AppendFor, Plain, LeaderRole.SendToFirst, Configuration.AllNodes, Without, Tracking, Beyond;
    var peers := Without(Simple(V, {}).AllNodes(), core.id);
    Others(core.id);
    SendsTo(core, state, peers, |peers|);
    assert peers[..|peers|] == peers && to in peers;
  }

  lemma Others(id: NodeId)
    ensures var peers := Without(Simple(V, {}).AllNodes(), id);
            Distinct(peers) && (forall j :: 0 <= j < |peers| ==> peers[j] in V)
            && forall to :: to in V && to != id ==> to in peers
  {
    var all := Simple(V, {}).AllNodes();
    OthersDistinct(all, id);
    forall to | to in V ensures to in all {
    }
    var peers := Without(all, id);
    hide Without;
    forall j | 0 <= j < |peers| ensures peers[j] in V {
      assert peers[j] in peers;
    }
  }

  /** How far a leader has come in the log does not matter to what it sends. */
  lemma {:induction false} AppliedUnsent(core: Core, applied: LogIndex, state: LeaderState, peers: seq<NodeId>, k: nat)
    requires k <= |peers| && core.opts == O && Plain(core.p.log) && Tracking(state)
    requires Distinct(peers) && forall j :: 0 <= j < |peers| ==> peers[j] in V
    ensures LeaderRole.SendToFirst(core.(lastApplied := applied), state, peers, k)
         == LeaderRole.SendToFirst(core, state, peers, k)
  {
    hide LeaderRole.SendAppendTo, LeaderRole.AppendFor, Plain, Tracking, Distinct, Beyond;
    if k > 0 {
      AppliedUnsent(core, applied, state, peers, k - 1);
      SendsTo(core, state, peers, k - 1);
      var state' := LeaderRole.SendToFirst(core, state, peers, k - 1).0;
      SendOne(core, state', peers[k - 1]);
      SendOne(core.(lastApplied := applied), state', peers[k - 1]);
      SameRequest(core, applied, state'.NextOf(peers[k - 1]), peers[k - 1]);
    }
  }

  lemma SameRequest(core: Core, applied: LogIndex, next: LogIndex, to: NodeId)
    ensures LeaderRole.AppendFor(core.(lastApplied := applied), next, to) == LeaderRole.AppendFor(core, next, to)
  {
  }

  lemma SameBroadcast(core: Core, applied: LogIndex, state: LeaderState)
    requires core.opts == O && CoreOk(V, core) && Tracking(state)
    ensures LeaderRole.BroadcastAppend(core.(lastApplied := applied), state) == LeaderRole.BroadcastAppend(core, state)
  {
    hide LeaderRole.SendToFirst, Without, Configuration.AllNodes, Tracking, Distinct;
    FixedConfig(V, core);
    FixedConfig(V, core.(lastApplied := applied));
    hide Core.EffectiveConfig;
    var peers := Without(Simple(V, {}).AllNodes(), core.id);
    Others(core.id);
    AppliedUnsent(core, applied, state, peers, |peers|);
  }

  /** Who is believed to hold everything up to an index. */
  function Holders(state: LeaderState, index: LogIndex): set<NodeId> {
    set id | id in V && state.MatchOf(id) >= index
  }

  /** The leader counts a quorum for its whole log, which ends in its own term. */
  predicate CountsAll(entries: seq<Entry>, term: Term, commit: LogIndex, state: LeaderState) {
    && |entries| > commit && P.LastTerm(entries) == term
    && Simple(V, {}).HasQuorum(Holders(state, |entries|))
  }

  /** It counts a quorum for none of its entries of its own term. */
  ghost predicate CountsNone(entries: seq<Entry>, term: Term, commit: LogIndex, state: LeaderState) {
    forall j: nat {:trigger Holders(state, j)} ::
      commit < j <= |entries| ==> P.TermAt(entries, j) != term || !Simple(V, {}).HasQuorum(Holders(state, j))
  }

  /** The index a leader commits if it commits all or nothing. */
  function CommitAfter(entries: seq<Entry>, term: Term, commit: LogIndex, state: LeaderState): LogIndex {
    if CountsAll(entries, term, commit, state) then |entries| else commit
  }

  lemma Commits(core: Core, state: LeaderState)
    requires CoreOk(V, core)
    requires var entries := core.p.log.entries;
             || CountsAll(entries, core.p.term, core.commitIndex, state)
             || CountsNone(entries, core.p.term, core.commitIndex, state)
    ensures LeaderRole.AdvanceCommit(core, state)
         == core.(commitIndex := CommitAfter(core.p.log.entries, core.p.term, core.commitIndex, state))
  {
    PlainQueries(core.p.log);
    FixedConfig(V, core);
    hide CoreOk, LeaderRole.Matched, LatestConfig, LeaderRole.HighestCommittable, Holders, P.TermAt;
    var last := core.p.log.LastIndex();
    CommitLoop.HighestIs(core, state, last);
    var c := LeaderRole.HighestCommittable(core, state, last);
    WhoMatches(core, state, c);
    WhoMatches(core, state, last);
    if CountsAll(core.p.log.entries, core.p.term, core.commitIndex, state) {
      LastTermAt(core.p.log.entries);
      assert LeaderRole.Committable(core, state, last);
    }
  }

  lemma LastTermAt(entries: seq<Entry>)
    requires entries != []
    ensures P.TermAt(entries, |entries|) == P.LastTerm(entries)
  {
  }

  lemma WhoMatches(core: Core, state: LeaderState, index: LogIndex)
    requires core.EffectiveConfig() == Simple(V, {})
    ensures LeaderRole.Matched(core, state, index) == Holders(state, index)
  {
  }

  lemma Proposes(core: Core, state: LeaderState, command: Bytes, to: NodeId)
    requires CoreOk(V, core) && core.opts == O && core.p.term > 0
    requires core.commitIndex <= core.p.log.LastIndex() && !core.ProposalLimitExceeded(command)
    requires to in V && to != core.id && Tracking(state)
    ensures var core' := LeaderRole.AppendCommand(core, command);
            var state' := state.(matchIndex := state.matchIndex[core.id := core'.p.log.LastIndex()]);
            var done := LeaderRole.AdvanceCommit(core', state');
            var r := Propose(Node(core, Leader(state)), command);
            && r.Proposed? && r.node == Node(done, Leader(LeaderRole.BroadcastAppend(done, state').0))
            && r.effects.persist && r.effects.sendSnapshots == []
            && LeaderRole.AppendFor(done, state'.NextOf(to), to) in Msgs(r.effects)
  {
    hide LeaderRole.MaybeCommit, LeaderRole.AdvanceCommit, LeaderRole.BroadcastAppend, LeaderRole.AppendFor;
    var core' := LeaderRole.AppendCommand(core, command);
    var state' := state.(matchIndex := state.matchIndex[core.id := core'.p.log.LastIndex()]);
    AppendedOk(core, command);
    hide CoreOk, LeaderRole.AppendCommand;
    MaybeCommitPlain(V, core', state');
    Committing(core', state');
    Broadcasts(LeaderRole.AdvanceCommit(core', state'), state', to);
  }

  lemma AppendedOk(core: Core, command: Bytes)
    requires CoreOk(V, core) && core.opts == O && core.p.term > 0
    ensures CoreOk(V, LeaderRole.AppendCommand(core, command)) && LeaderRole.AppendCommand(core, command).opts == O
    ensures LeaderRole.AppendCommand(core, command).id == core.id
  {
    PlainQueries(core.p.log);
  }

  lemma Committing(core: Core, state: LeaderState)
    requires CoreOk(V, core)
    ensures var done := LeaderRole.AdvanceCommit(core, state);
            && done.EffectiveConfig() == Simple(V, {}) && done.opts == core.opts && done.id == core.id
            && done.p == core.p && Plain(done.p.log)
  {
    hide LeaderRole.HighestCommittable;
    CommitKeepsCore(V, core, state);
    FixedConfig(V, LeaderRole.AdvanceCommit(core, state));
  }

  /** Commands of one byte. */
  ghost predicate Short(entries: seq<Entry>) {
    Commands(entries) && forall k :: 0 <= k < |entries| ==> |entries[k].payload.bytes| == 1
  }

  /** A short command on a short log is never throttled here. */
  lemma Unthrottled(id: NodeId, term: Term, vote: Option<NodeId>, entries: seq<Entry>, commit: LogIndex, role: Role,
                    command: Bytes)
    requires id in V && Short(entries) && |entries| < 10 && |command| == 1 && commit <= |entries|
    ensures var core := Server(id, term, vote, entries, commit, role).core;
            core.commitIndex <= core.p.log.LastIndex() && !core.ProposalLimitExceeded(command)
  {
    var core := Server(id, term, vote, entries, commit, role).core;
    ServerOk(id, term, vote, entries, commit, role);
    SliceFrom(entries, commit);
    BytesOf(entries[commit..]);
  }

  lemma SliceFrom(entries: seq<Entry>, commit: LogIndex)
    requires Commands(entries) && commit <= |entries|
    ensures LogWith(entries).Slice(commit + 1, |entries|) == entries[commit..]
  {
  }

  lemma {:induction false} BytesOf(entries: seq<Entry>)
    requires forall k :: 0 <= k < |entries| ==> entries[k].payload.Command? && |entries[k].payload.bytes| == 1
    ensures CommandBytes(entries) == |entries|
  {
    if entries != [] {
      BytesOf(entries[..|entries| - 1]);
    }
  }

  lemma AppendsNode(id: NodeId, term: Term, vote: Option<NodeId>, entries: seq<Entry>, commit: LogIndex,
                    state: LeaderState, command: Bytes, to: NodeId)
    requires id in V && to in V && to != id && Short(entries) && term > 0 && |entries| < 10 && |command| == 1
    requires commit <= |entries| && Tracking(state)
    requires var grown := entries + [Entry(term, |entries| + 1, Command(command))];
             var state' := state.(matchIndex := state.matchIndex[id := |grown|]);
             CountsAll(grown, term, commit, state') || CountsNone(grown, term, commit, state')
    ensures var grown := entries + [Entry(term, |entries| + 1, Command(command))];
            var state' := state.(matchIndex := state.matchIndex[id := |grown|]);
            var after := Server(id, term, vote, grown, CommitAfter(grown, term, commit, state'), Leader(state'));
            var r := Propose(Server(id, term, vote, entries, commit, Leader(state)), command);
            && Short(grown)
            && r.Proposed?
            && r.node.core == after.core.(lastApplied := commit)
            && r.node.role == Leader(LeaderRole.BroadcastAppend(after.core, state').0)
            && r.effects.persist && r.effects.sendSnapshots == []
            && LeaderRole.AppendFor(r.node.core, state'.NextOf(to), to) in Msgs(r.effects)
  {
    hide CoreOk, Msgs, Propose, LeaderRole.AppendFor, LeaderRole.AdvanceCommit, CountsAll, CountsNone, CommitAfter;
    hide LeaderRole.BroadcastAppend;
    var grown := entries + [Entry(term, |entries| + 1, Command(command))];
    var state' := state.(matchIndex := state.matchIndex[id := |grown|]);
    var core := Server(id, term, vote, entries, commit, Leader(state)).core;
    ServerOk(id, term, vote, entries, commit, Leader(state));
    ServerOk(id, term, vote, grown, commit, Leader(state'));
    Unthrottled(id, term, vote, entries, commit, Leader(state), command);
    Proposes(core, state, command, to);
    assert LeaderRole.AppendCommand(core, command) == Server(id, term, vote, grown, commit, Leader(state')).core;
    Commits(Server(id, term, vote, grown, commit, Leader(state')).core, state');
    var after := Server(id, term, vote, grown, CommitAfter(grown, term, commit, state'), Leader(state'));
    ServerOk(id, term, vote, grown, CommitAfter(grown, term, commit, state'), Leader(state'));
    SameBroadcast(after.core, commit, state');
  }

  // ----- Messages -----

  lemma StepsDown(core: Core, state: LeaderState, m: Message)
    requires m.body.AppendRequest? && m.term > core.p.term
    ensures StepEvent(Node(core, Leader(state)), Receive(m, false))
         == (Node(core.MaybeUpdateTerm(m.term), Follower(Some(m.from))), NO_EFFECTS.WithPersist())
  {
  }

  lemma Accepts(core: Core, leader: Option<NodeId>, m: Message, entries: seq<Entry>)
    requires CoreOk(V, core) && m.body.AppendRequest? && m.term == core.p.term
        && m.body.leaderCommit <= core.commitIndex
    requires FollowerRole.PrevMatches(core.p.log, m.body) && Acceptable(core.p.log, m.body)
    requires entries == P.MergeAt(core.p.log.entries, m.body.prevLogIndex, m.body.entries)
    ensures var (node, effects) := StepEvent(Node(core, Follower(leader)), Receive(m, false));
            && node == Node(core.WithLog(core.p.log.(entries := entries)), Follower(Some(m.from)))
            && effects.sendSnapshots == [] && (effects.persist || node.core.p == core.p)
            && effects.messages == [Message(core.id, m.from, core.p.term, AppendResponse(true, |entries|))]
  {
    hide FollowerRole.Merge, FollowerRole.MergePersists, P.MergeAt, Acceptable;
    MergedLog(core.p.log, m.body);
    if !FollowerRole.MergePersists(core.p.log, m.body.entries) {
      UnpersistedMerge(core.p.log, m.body.entries);
    }
  }

  /** The same with a newer term. */
  lemma AcceptsNewer(core: Core, leader: Option<NodeId>, m: Message, entries: seq<Entry>)
    requires CoreOk(V, core) && m.body.AppendRequest? && m.term > core.p.term && m.body.leaderCommit <= core.commitIndex
    requires FollowerRole.PrevMatches(core.p.log, m.body) && Acceptable(core.p.log, m.body)
    requires entries == P.MergeAt(core.p.log.entries, m.body.prevLogIndex, m.body.entries)
    ensures var (node, effects) := StepEvent(Node(core, Follower(leader)), Receive(m, false));
            && node == Node(core.MaybeUpdateTerm(m.term).WithLog(core.p.log.(entries := entries)),
                            Follower(Some(m.from)))
            && effects.sendSnapshots == [] && effects.persist
            && effects.messages == [Message(core.id, m.from, m.term, AppendResponse(true, |entries|))]
  {
    hide FollowerRole.Merge, FollowerRole.MergePersists, P.MergeAt, Acceptable;
    MergedLog(core.p.log, m.body);
  }

  lemma Rejects(core: Core, leader: Option<NodeId>, m: Message)
    requires m.body.AppendRequest? && m.term == core.p.term && !FollowerRole.PrevMatches(core.p.log, m.body)
    ensures StepEvent(Node(core, Follower(leader)), Receive(m, false))
         == (Node(core, Follower(Some(m.from))),
             NO_EFFECTS.WithMessage(Message(core.id, m.from, core.p.term,
                                            AppendResponse(false, core.p.log.LastIndex()))))
  {
  }

  lemma Counts(core: Core, state: LeaderState, from: NodeId, last: LogIndex)
    requires CoreOk(V, core) && core.opts == O && from in V
    ensures var m := Message(from, core.id, core.p.term, AppendResponse(true, last));
            var state' := state.(matchIndex := state.matchIndex[from := last]);
            StepEvent(Node(core, Leader(state)), Receive(m, false)) ==
            (Node(LeaderRole.AdvanceCommit(core, state'), Leader(state')), NO_EFFECTS)
  {
    hide LeaderRole.MaybeCommit, LeaderRole.AdvanceCommit, CoreOk;
    var state' := state.(matchIndex := state.matchIndex[from := last]);
    FixedConfig(V, core);
    MaybeCommitPlain(V, core, state');
  }

  lemma Retries(core: Core, state: LeaderState, from: NodeId, last: LogIndex)
    requires CoreOk(V, core) && core.opts == O && from in V && Tracking(state) && state.MatchOf(from) <= last
    ensures var m := Message(from, core.id, core.p.term, AppendResponse(false, last));
            var state' := state.(nextIndex := state.nextIndex[from := Beyond(last + 1, |core.p.log.entries|)]);
            StepEvent(Node(core, Leader(state)), Receive(m, false)) ==
            (Node(core, Leader(state')), NO_EFFECTS.WithMessage(LeaderRole.AppendFor(core, last + 1, from)))
  {
    FixedConfig(V, core);
    hide Core.EffectiveConfig, Plain;
    SendOne(core, state.(nextIndex := state.nextIndex[from := last + 1]), from);
    var last' := Beyond(last + 1, |core.p.log.entries|);
    assert state.nextIndex[from := last + 1][from := last'] == state.nextIndex[from := last'];
    hide LeaderRole.AppendFor, LeaderRole.Batch, LeaderRole.SendAppendTo, CoreOk;
  }

  // ----- Reads -----

  function Waiting(id: NodeId, commit: LogIndex, state: LeaderState): LeaderState {
    state.(nextReadId := state.nextReadId + 1,
           pendingRead := Some(PendingRead(state.nextReadId, commit, Simple(V, {}), {id})))
  }

  /** A leader with a committed entry of its own asks every other server. */
  lemma Reads(id: NodeId, term: Term, vote: Option<NodeId>, entries: seq<Entry>, commit: LogIndex, state: LeaderState,
              to: NodeId)
    requires id in V && to in V && to != id && Commands(entries) && state.pendingRead.None?
    requires 0 < commit && P.TermAt(entries, commit) == term
    ensures var r := RequestReadIndex(Server(id, term, vote, entries, commit, Leader(state)));
            && r.ReadStarted? && r.state == Waiting(id, commit, state) && r.readIndex == commit
            && !r.effects.persist && r.effects.sendSnapshots == []
            && Message(id, to, term, ReadIndexRequest(state.nextReadId, commit)) in Msgs(r.effects)
  {
    hide Server, LeaderRole.ReadRequests, LeaderRole.CommittedInTerm, Msgs, CoreOk, Commands, Core.EffectiveConfig;
    var core := Server(id, term, vote, entries, commit, Leader(state)).core;
    ServerOk(id, term, vote, entries, commit, Leader(state));
    ServerIs(id, term, vote, entries, commit, Leader(state));
    OwnCommitted(core, commit);
    Quorum({id});
    ReadsAsk(core, PendingRead(state.nextReadId, commit, Simple(V, {}), {id}), to);
  }

  lemma OwnCommitted(core: Core, commit: LogIndex)
    requires 0 < commit && core.p.log.TermAt(commit) == core.p.term
    ensures LeaderRole.CommittedInTerm(core, commit)
  {
    hide Log.TermAt;
  }

  lemma ReadsAsk(core: Core, pending: PendingRead, to: NodeId)
    requires to in V && to != core.id && pending.configuration == Simple(V, {})
    ensures var effects := LeaderRole.ReadRequests(core, pending);
            && !effects.persist && effects.sendSnapshots == []
            && Message(core.id, to, core.p.term, ReadIndexRequest(pending.id, pending.readIndex)) in Msgs(effects)
  {
    var peers := Without(Simple(V, {}).Voters(), core.id);
    assert to in peers;
    hide Without, Configuration.Voters;
    var k :| 0 <= k < |peers| && peers[k] == to;
    assert LeaderRole.ReadRequests(core, pending).messages[k]
        == Message(core.id, to, core.p.term, ReadIndexRequest(pending.id, pending.readIndex));
  }

  lemma Answers(core: Core, leader: Option<NodeId>, m: Message)
    requires m.body.ReadIndexRequest? && m.term <= core.p.term
    ensures StepEvent(Node(core, Follower(leader)), Receive(m, false))
         == (Node(core, Follower(if m.term == core.p.term then Some(m.from) else leader)),
             NO_EFFECTS.WithMessage(
               Message(core.id, m.from, core.p.term, ReadIndexResponse(m.body.readId, m.body.readIndex))))
  {
  }

  /** One answer is enough. */
  lemma Confirms(core: Core, state: LeaderState, from: NodeId)
    requires core.id in V && from in V && from != core.id && state.pendingRead.Some?
    requires state.pendingRead.value.configuration == Simple(V, {}) && state.pendingRead.value.acks == {core.id}
    ensures var p := state.pendingRead.value;
            var m := Message(from, core.id, core.p.term, ReadIndexResponse(p.id, p.readIndex));
            StepEvent(Node(core, Leader(state)), Receive(m, false)) ==
            (Node(core, Leader(state.(pendingRead := None, confirmedRead := Max(state.confirmedRead, p.readIndex)))),
             NO_EFFECTS)
  {
    Quorum({core.id} + {from});
  }
}
