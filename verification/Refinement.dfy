/** Every event of a real node is a short chain of protocol steps. */
module Refinement {
  import opened Types
  import opened Membership
  import opened RaftLog
  import opened Event
  import opened RaftCore
  import opened Merging
  import P = Protocol
  import CommitSafety

  // ----- What the protocol sees of a node -----

  function ViewPhase(role: Role): P.Phase {
    match role
    case Follower(_) => P.Idle
    case PreCandidate(_) => P.Idle
    case Candidate(votes) => P.Campaigning(votes)
    case Leader(state) =>
      P.Leading(state.matchIndex, state.nextReadId,
        (match state.pendingRead
         case None => None
         case Some(r) => Some(P.Round(r.id, r.readIndex, r.acks))),
        state.confirmedRead)
  }

  function View(core: Core, role: Role): P.Server {
    P.Server(core.p.term, core.p.votedFor, core.p.log.entries, core.commitIndex, ViewPhase(role))
  }

  // ----- Nodes of a cluster with fixed voters and no snapshot -----

  ghost predicate CoreOk(voters: set<NodeId>, core: Core) {
    && core.id in voters
    && core.p.bootstrap == Simple(voters, {})
    && !core.opts.parallelDiskWrite
    && Plain(core.p.log)
    && forall k :: 0 <= k < |core.p.log.entries| ==> core.p.log.entries[k].payload.Command?
  }

  ghost predicate RoleOk(voters: set<NodeId>, role: Role) {
    role.Leader? ==>
      && (forall id :: id in role.state.nextIndex ==> role.state.nextIndex[id] >= 1)
      && (role.state.pendingRead.Some? ==> role.state.pendingRead.value.configuration == Simple(voters, {}))
  }

  /** What a step may not touch. */
  ghost predicate SameShape(a: Core, b: Core) {
    && a.id == b.id && a.opts == b.opts && a.p.bootstrap == b.p.bootstrap
    && a.p.log.snapshotIndex == b.p.log.snapshotIndex
    && a.p.log.snapshotTerm == b.p.log.snapshotTerm
    && a.p.log.snapshotConfig == b.p.log.snapshotConfig
  }

  lemma {:induction false} NoConfig(entries: seq<Entry>)
    requires forall k :: 0 <= k < |entries| ==> entries[k].payload.Command?
    ensures LatestConfig(entries) == None
  {
    if entries != [] {
      NoConfig(entries[..|entries| - 1]);
    }
  }

  lemma FixedConfig(voters: set<NodeId>, core: Core)
    requires CoreOk(voters, core)
    ensures core.EffectiveConfig() == Simple(voters, {})
    ensures core.SelfIsVoter()
  {
    var log := core.p.log;
    NoConfig(log.entries[..Min(log.LastIndex(), |log.entries|)]);
  }

  // ----- Chains -----

  /** Server `i` goes from `sv` to `sv'` by the actions in turn, each allowed when taken and
      truthful about the leader logs in `lead`, if there are any; what it sends is added to
      the network. A leadership that the chain begins or uses lasts to its end. */
  ghost predicate Chain(lead: Option<P.LeaderLogs>, voters: set<NodeId>, net: set<Message>, i: NodeId, sv: P.Server,
                        acts: seq<P.Action>, sv': P.Server, net': set<Message>)
    decreases |acts|
  {
    if acts == [] then sv' == sv && net' == net
    else
      && P.Can(voters, net, i, sv, acts[0])
      && CommitSafety.Truthful(lead, sv, acts[0])
      && P.Steady(sv, acts[0], sv')
      && var (mid, out) := P.Effect(i, sv, acts[0]);
         Chain(lead, voters, net + out, i, mid, acts[1..], sv', net')
  }

  /** Some chain leads there. */
  ghost predicate Reaches(lead: Option<P.LeaderLogs>, voters: set<NodeId>, net: set<Message>, i: NodeId, sv: P.Server,
                          sv': P.Server, net': set<Message>)
  {
    exists acts :: Chain(lead, voters, net, i, sv, acts, sv', net')
  }

  lemma ReachesOne(lead: Option<P.LeaderLogs>, voters: set<NodeId>, net: set<Message>, i: NodeId, sv: P.Server,
                   a: P.Action)
    requires P.Can(voters, net, i, sv, a)
    requires CommitSafety.Truthful(lead, sv, a)
    ensures Reaches(lead, voters, net, i, sv, P.Effect(i, sv, a).0, net + P.Effect(i, sv, a).1)
  {
    var (mid, out) := P.Effect(i, sv, a);
    assert [a][1..] == [];
    assert Chain(lead, voters, net + out, i, mid, [], mid, net + out);
    assert Chain(lead, voters, net, i, sv, [a], mid, net + out);
  }

  lemma {:induction false} ChainCat(lead: Option<P.LeaderLogs>, voters: set<NodeId>, net: set<Message>, i: NodeId,
                                    sv: P.Server,
                  a: seq<P.Action>, mid: P.Server, net1: set<Message>, b: seq<P.Action>, sv': P.Server,
                      net2: set<Message>)
    requires Chain(lead, voters, net, i, sv, a, mid, net1)
    requires Chain(lead, voters, net1, i, mid, b, sv', net2)
    requires mid.phase.Leading? ==> P.StillLeads(mid.term, sv')
    ensures Chain(lead, voters, net, i, sv, a + b, sv', net2)
    decreases |a|
  {
    hide P.Can, P.Effect, CommitSafety.Truthful;
    if a == [] {
      assert a + b == b;
    } else {
      assert P.Fits(sv, a[0]) by { CanFits(voters, net, i, sv, a[0]); }
      var (next, out) := P.Effect(i, sv, a[0]);
      ChainCat(lead, voters, net + out, i, next, a[1..], mid, net1, b, sv', net2);
      assert (a + b)[1..] == a[1..] + b;
    }
  }

  lemma CanFits(voters: set<NodeId>, net: set<Message>, i: NodeId, sv: P.Server, a: P.Action)
    requires P.Can(voters, net, i, sv, a)
    ensures P.Fits(sv, a)
  {
  }

  lemma ReachesThen(lead: Option<P.LeaderLogs>, voters: set<NodeId>, net: set<Message>, i: NodeId, sv: P.Server,
                    mid: P.Server, net1: set<Message>, sv': P.Server, net2: set<Message>)
    requires Reaches(lead, voters, net, i, sv, mid, net1)
    requires Reaches(lead, voters, net1, i, mid, sv', net2)
    requires mid.phase.Leading? ==> P.StillLeads(mid.term, sv')
    ensures Reaches(lead, voters, net, i, sv, sv', net2)
  {
    hide Chain;
    var a :| Chain(lead, voters, net, i, sv, a, mid, net1);
    var b :| Chain(lead, voters, net1, i, mid, b, sv', net2);
    ChainCat(lead, voters, net, i, sv, a, mid, net1, b, sv', net2);
  }

  /** One action, stated by where it leads. */
  lemma Via(lead: Option<P.LeaderLogs>, voters: set<NodeId>, net: set<Message>, i: NodeId, sv: P.Server, a: P.Action,
            sv': P.Server, out: set<Message>)
    requires P.Can(voters, net, i, sv, a)
    requires CommitSafety.Truthful(lead, sv, a)
    requires P.Effect(i, sv, a) == (sv', out)
    ensures Reaches(lead, voters, net, i, sv, sv', net + out)
  {
    hide P.Can, P.Effect, Chain, CommitSafety.Truthful;
    ReachesOne(lead, voters, net, i, sv, a);
  }
}
