/** One step of a real cluster keeps the protocol's invariant, the durable copies and what
    the state machines were fed. */
module Safety {
  import opened Types
  import opened Membership
  import opened RaftLog
  import opened Event
  import opened RaftCore
  import FollowerRole
  import LeaderRole
  import opened RaftNode
  import opened Merging
  import opened CommitLoop
  import opened Refinement
  import opened RefineRoles
  import opened RefineLeader
  import opened RefineStep
  import opened Cluster
  import opened History
  import opened Invariant
  import LogMatching
  import CommitSafety
  import Persist
  import P = Protocol

  /** The protocol state behind a cluster. */
  function Abs(c: ClusterState): P.State {
    P.State(c.voters, map i | i in c.machines :: View(c.machines[i].node.core, c.machines[i].node.role), c.net)
  }

  /** The durable copy is what is in memory. */
  ghost predicate MachineOk(voters: set<NodeId>, i: NodeId, mc: Machine) {
    NodeOk(voters, mc.node) && mc.node.core.id == i && mc.durable == mc.node.core.p
  }

  ghost predicate ClusterOk(c: ClusterState) {
    c.machines.Keys == c.voters && forall i :: i in c.machines ==> MachineOk(c.voters, i, c.machines[i])
  }

  /** The state machine was fed exactly the committed prefix of the log. */
  ghost predicate AppliedOk(mc: Machine) {
    var core := mc.node.core;
    && core.lastApplied == core.commitIndex <= |core.p.log.entries|
    && mc.applied == core.p.log.entries[..core.commitIndex]
  }

  ghost predicate AllApplied(c: ClusterState) {
    forall i :: i in c.machines ==> AppliedOk(c.machines[i])
  }

  /** Everything up to the commit index has been applied. */
  ghost predicate CaughtUp(c: ClusterState) {
    forall i :: i in c.machines ==> c.machines[i].node.core.commitIndex <= c.machines[i].node.core.lastApplied
  }

  ghost predicate Tracks(strict: bool, c: ClusterState, h: History) {
    ClusterOk(c) && CaughtUp(c) && Inv(strict, Abs(c), h) && (strict ==> AllApplied(c))
  }

  /** The acknowledgement a delivery produces reports a prefix of the leader's log. */
  predicate HonestStep(lead: Option<P.LeaderLogs>, c: ClusterState, i: NodeId, step: Step)
    requires i in c.machines
  {
    step.DeliverStep? ==> HonestEvent(lead, c.machines[i].node, Receive(step.m, step.recent))
  }

  lemma InitialTracks(strict: bool, c: ClusterState)
    requires Initial(c)
    ensures Tracks(strict, c, BLANK)
  {
    hide Inv;
    assert P.Initial(Abs(c));
    InitialInv(strict, Abs(c));
  }

  // ----- Reading the invariant for one machine -----

  lemma LogFacts(strict: bool, c: ClusterState, h: History, i: NodeId)
    requires Inv(strict, Abs(c), h) && i in c.machines
    ensures LogMatching.ServerLogOk(View(c.machines[i].node.core, c.machines[i].node.role), h)
    ensures LogMatching.LeaderLogsOk(h)
    ensures forall m :: m in c.net ==> LogMatching.AppendMessageOk(m, h)
  {
    hide LogMatching.ServerLogOk, LogMatching.LeaderLogsOk, LogMatching.AppendMessageOk, LogMatching.CampaignLogsOk,
      LogMatching.VotedLogsOk, ElectionInv;
    assert i in Abs(c).servers && Abs(c).servers[i] == View(c.machines[i].node.core, c.machines[i].node.role);
  }

  /** Whatever append request was sent can be merged: it is numbered past a prefix the log has. */
  lemma DeliveredMergeable(log: Log, m: Message, h: History)
    requires Plain(log) && LogMatching.Conforms(log.entries, h) && LogMatching.LeaderLogsOk(h)
    requires m.body.AppendRequest? && LogMatching.AppendMessageOk(m, h)
    ensures Acceptable(log, m.body)
  {
    PlainQueries(log);
    if FollowerRole.PrevMatches(log, m.body) && m.body.entries != [] {
      LogMatching.PrevChecked(log.entries, m, h);
      assert LogMatching.LeaderLogOk(m.term, h);
    }
  }

  // ----- The step -----

  lemma NodeStepRefined(lead: Option<P.LeaderLogs>, c: ClusterState, h: History, i: NodeId, step: Step)
    requires Possible(c, i, step) && Tracks(lead.Some?, c, h) && HonestStep(lead, c, i, step)
    ensures var (node', effects) := NodeStep(c, i, step);
            var node := c.machines[i].node;
            Refined(lead, c.voters, c.net, node.core, node.role, node'.core, node'.role, effects)
  {
    var node := c.machines[i].node;
    assert MachineOk(c.voters, i, c.machines[i]);
    LogFacts(lead.Some?, c, h, i);
    hide Inv, Refined, StepEvent, CoreOk, Propose, RequestReadIndex, TransferLeadership, Acceptable, Honest, AllApplied;
    match step
    case TickStep(expired) => EventRefined(lead, c.voters, c.net, node, Tick(expired));
    case DeliverStep(m, recent) =>
      if m.body.AppendRequest? {
        MachinePlain(c.voters, node);
        DeliveredMergeable(node.core.p.log, m, h);
      }
      EventRefined(lead, c.voters, c.net, node, Receive(m, recent));
    case ProposeStep(command) => ProposalRefined(lead, c.voters, c.net, node, command);
    case ReadStep => ReadRefined(lead, c.voters, c.net, node);
    case TransferStep(target) => TransferRefined(lead, c.voters, c.net, node, target);
    case CrashStep => CrashRefined(lead, c.voters, c.net, node);
  }

  lemma MachinePlain(voters: set<NodeId>, node: Node)
    requires NodeOk(voters, node)
    ensures Plain(node.core.p.log)
  {
  }

  lemma ReadRefined(lead: Option<P.LeaderLogs>, voters: set<NodeId>, net: set<Message>, node: Node)
    requires NodeOk(voters, node) && RequestReadIndex(node).ReadStarted?
    ensures var r := RequestReadIndex(node);
            Refined(lead, voters, net, node.core, node.role, node.core, Leader(r.state), r.effects)
  {
    hide Refined, LeaderRole.RequestReadIndex, CoreOk;
    RequestReadRefined(lead, voters, net, node.core, node.role.state);
  }

  /** What changed was asked to be persisted. */
  lemma StepPersists(c: ClusterState, i: NodeId, step: Step)
    requires Possible(c, i, step) && ClusterOk(c)
    ensures var (node', effects) := NodeStep(c, i, step);
            effects.persist || node'.core.p == c.machines[i].durable
  {
    var node := c.machines[i].node;
    assert MachineOk(c.voters, i, c.machines[i]);
    hide StepEvent, Propose, RequestReadIndex, TransferLeadership;
    match step
    case TickStep(expired) => Persist.EventCovered(node, Tick(expired));
    case DeliverStep(m, recent) => Persist.EventCovered(node, Receive(m, recent));
    case ProposeStep(command) => Persist.ProposalCovered(node, command);
    case _ =>
  }

  // ----- Applying -----

  lemma {:induction false} ApplyOnlyCounts(core: Core, applied: seq<Entry>)
    ensures var (core', _) := ApplyCommitted(core, applied);
            core' == core.(lastApplied := core'.lastApplied)
    decreases if core.commitIndex > core.lastApplied then core.commitIndex - core.lastApplied else 0
  {
    match NextCommitted(core, core.lastApplied + 1)
    case None =>
    case Some(e) =>
      if core.lastApplied < e.index <= core.commitIndex {
        ApplyOnlyCounts(core.(lastApplied := e.index), applied + [e]);
      }
  }

  /** With commands only, the loop feeds the machine every entry up to the commit index. */
  lemma {:induction false} ApplyFeeds(core: Core, applied: seq<Entry>)
    requires Plain(core.p.log) && core.lastApplied <= core.commitIndex <= |core.p.log.entries|
    requires forall k :: 0 <= k < |core.p.log.entries| ==> core.p.log.entries[k].payload.Command?
    ensures ApplyCommitted(core, applied)
         == (core.(lastApplied := core.commitIndex), applied + core.p.log.entries[core.lastApplied..core.commitIndex])
    decreases core.commitIndex - core.lastApplied
  {
    var n, log := core.lastApplied, core.p.log.entries;
    if n < core.commitIndex {
      var e := log[n];
      assert core.p.log.Get(n + 1) == Some(e) && e.payload.Command?;
      assert NextCommitted(core, n + 1) == Some(e);
      ApplyFeeds(core.(lastApplied := n + 1), applied + [e]);
      assert applied + [e] + log[n + 1..core.commitIndex] == applied + log[n..core.commitIndex];
    } else {
      assert applied + log[n..n] == applied;
    }
  }

  // ----- Putting it together -----

  lemma NodeOkAfter(strict: bool, c: ClusterState, c': ClusterState, h': History, i: NodeId)
    requires i in c.machines && i in c'.machines && Inv(strict, Abs(c'), h')
    requires NodeOk(c.voters, c.machines[i].node) && RoleOk(c.voters, c'.machines[i].node.role)
    requires SameShape(c.machines[i].node.core, c'.machines[i].node.core)
    ensures NodeOk(c.voters, c'.machines[i].node)
  {
    hide Inv, LogMatching.Conforms, LogMatching.LeaderLogsOk, LogMatching.AppendMessageOk;
    LogFacts(strict, c', h', i);
    if c'.machines[i].node.role.Leader? {
      LeaderTerm(strict, Abs(c'), h', i);
    }
  }

  lemma LeaderTerm(strict: bool, s: P.State, h: History, i: NodeId)
    requires Inv(strict, s, h) && i in s.servers && s.servers[i].phase.Leading?
    ensures s.servers[i].term > 0
  {
    hide VoteOk, VoteMessagesOk, VotesJustified, ElectionsBacked, LogMatching.ServerLogOk, LogMatching.AppendMessageOk,
      LogMatching.VotedLogsOk, LogMatching.LeaderLogsOk, LogMatching.CampaignLogsOk, RoundsKnown;
    assert PhaseOk(i, s.servers[i], h);
    LogMatching.LeaderTermPositive(i, s.servers[i], h);
  }

  /** What a step leaves alone, and what it makes of the machine that moved. */
  lemma DoShape(c: ClusterState, i: NodeId, step: Step, node': Node, effects: Effects)
    requires Possible(c, i, step) && NodeStep(c, i, step) == (node', effects) && effects.sendSnapshots == []
    ensures var c' := Do(c, i, step);
            && c'.voters == c.voters && c'.machines.Keys == c.machines.Keys && c'.net == c.net + Msgs(effects)
            && (forall j :: j in c.machines && j != i ==> c'.machines[j] == c.machines[j])
            && c'.machines[i].node == Node(node'.core.(lastApplied := c'.machines[i].node.core.lastApplied), node'.role)
            && c'.machines[i].durable == (if effects.persist then node'.core.p else c.machines[i].durable)
  {
    hide NodeStep, ApplyCommitted;
    ApplyOnlyCounts(node'.core, if step.CrashStep? then [] else c.machines[i].applied);
  }

  lemma AbsDo(c: ClusterState, i: NodeId, step: Step, node': Node, effects: Effects)
    requires Possible(c, i, step) && NodeStep(c, i, step) == (node', effects) && effects.sendSnapshots == []
    ensures Abs(Do(c, i, step)) == P.State(c.voters, Abs(c).servers[i := View(node'.core, node'.role)],
                                           c.net + Msgs(effects))
  {
    hide NodeStep, Do;
    DoShape(c, i, step, node', effects);
    assert Abs(Do(c, i, step)).servers == Abs(c).servers[i := View(node'.core, node'.role)];
  }

  lemma StepTracks(strict: bool, c: ClusterState, h: History, i: NodeId, step: Step) returns (h': History)
    requires Possible(c, i, step) && Tracks(strict, c, h) && (strict ==> HonestStep(Some(h.logs), c, i, step))
    ensures Extends(h, h') && Tracks(strict, Do(c, i, step), h')
    ensures i in Do(c, i, step).machines
    ensures LedSince(i, Abs(c).servers[i], Abs(Do(c, i, step)).servers[i], h)
    ensures NewOf(Abs(c).servers[i], Abs(Do(c, i, step)).servers[i], h, h')
    ensures c.machines[i].node.core.p.term <= Do(c, i, step).machines[i].node.core.p.term
  {
    hide Inv, NodeStep, Do, Reaches, Extends, AllApplied, NodeOk, NewOf, LedSince, HonestStep;
    var lead := if strict then Some(h.logs) else None;
    if !strict {
      LaxStep(c, i, step);
    }
    NodeStepRefined(lead, c, h, i, step);
    var (node', effects) := NodeStep(c, i, step);
    var c' := Do(c, i, step);
    AbsDo(c, i, step, node', effects);
    assert MachineOk(c.voters, i, c.machines[i]) && i in Abs(c).servers;
    h' := ReachesInv(lead, Abs(c), h, i, View(node'.core, node'.role), c.net + Msgs(effects));
    StepKeepsMachine(strict, c, h', i, step);
    StepCaughtUp(c, i, step);
    if strict {
      StepKeepsApplied(c, h, i, step, h');
    }
  }

  lemma LaxStep(c: ClusterState, i: NodeId, step: Step)
    requires i in c.machines
    ensures HonestStep(None, c, i, step)
  {
  }

  lemma StepKeepsMachine(strict: bool, c: ClusterState, h': History, i: NodeId, step: Step)
    requires i in c.machines && Possible(c, i, step) && ClusterOk(c)
    requires var (node', effects) := NodeStep(c, i, step);
             && SameShape(c.machines[i].node.core, node'.core) && RoleOk(c.voters, node'.role)
             && effects.sendSnapshots == []
    requires Inv(strict, Abs(Do(c, i, step)), h')
    ensures ClusterOk(Do(c, i, step))
  {
    hide Possible, Inv, NodeStep, Do, Abs, View, RoleOk, CoreOk, Msgs;
    assert MachineOk(c.voters, i, c.machines[i]);
    var (node', effects) := NodeStep(c, i, step);
    var c' := Do(c, i, step);
    DoShape(c, i, step, node', effects);
    StepPersists(c, i, step);
    hide NodeOk;
    NodeOkAfter(strict, c, c', h', i);
    assert MachineOk(c.voters, i, c'.machines[i]);
  }

  // ----- What the state machines were fed -----

  /** The commit index never falls while a node runs. */
  lemma StepCommitGrows(c: ClusterState, i: NodeId, step: Step)
    requires Possible(c, i, step) && !step.CrashStep?
    requires step.DeliverStep? ==> KeepsCommit(c.machines[i].node, Receive(step.m, step.recent))
    ensures NodeStep(c, i, step).0.core.commitIndex >= c.machines[i].node.core.commitIndex
    ensures NodeStep(c, i, step).0.core.lastApplied == c.machines[i].node.core.lastApplied
  {
    hide StepEvent, Propose, RequestReadIndex, TransferLeadership;
    var node := c.machines[i].node;
    match step
    case TickStep(expired) => EventCommitGrows(node, Tick(expired));
    case DeliverStep(m, recent) => EventCommitGrows(node, Receive(m, recent));
    case ProposeStep(command) => ProposalCommitGrows(node, command);
    case _ =>
  }

  /** The index moves on and the applied count is left to the runtime. */
  ghost predicate Onward(before: Core, after: Core) {
    before.commitIndex <= after.commitIndex && before.lastApplied == after.lastApplied
  }

  lemma AdvanceOnward(core: Core, state: LeaderState)
    ensures Onward(core, LeaderRole.AdvanceCommit(core, state))
  {
    hide LeaderRole.HighestCommittable, LeaderRole.Committable;
    HighestIs(core, state, core.p.log.LastIndex());
  }

  lemma {:induction false} MaybeCommitOnward(core: Core, state: LeaderState, effects: Effects)
    ensures Onward(core, LeaderRole.MaybeCommit(core, state, effects).core)
    decreases LeaderRole.JointsPast(core.p.log, core.commitIndex)
  {
    hide LeaderRole.HighestCommittable, LeaderRole.JointsPast;
    AdvanceOnward(core, state);
    var advanced := LeaderRole.AdvanceCommit(core, state);
    if advanced.commitIndex != core.commitIndex {
      ProcessOnward(advanced, state, core.commitIndex + 1);
      var next := LeaderRole.ProcessCommitted(advanced, state, core.commitIndex + 1);
      hide LeaderRole.ProcessCommitted;
      if next.Continue? {
        MaybeCommitOnward(next.core, next.state, effects.Merge(next.effects));
      }
    }
  }

  lemma ProcessOnward(core: Core, state: LeaderState, index: LogIndex)
    requires index > 0
    ensures var r := LeaderRole.ProcessCommitted(core, state, index); r.Continue? ==> Onward(core, r.core)
    decreases core.commitIndex + 1 - index
  {
    if index <= core.commitIndex {
      ProcessOnward(core, state, index + 1);
    }
  }

  lemma LeaderOnward(core: Core, role: Role, event: Event)
    requires role.Leader?
    ensures Onward(core, LeaderRole.Step(core, role, event).core)
  {
    hide LeaderRole.MaybeCommit, LeaderRole.SendAppendTo, LeaderRole.BroadcastAppend;
    var state := role.state;
    match event
    case Tick(_) =>
    case DiskWriteComplete(index) =>
      MaybeCommitOnward(core, state.(matchIndex := state.matchIndex[core.id := index]), NO_EFFECTS);
    case Receive(m, _) =>
      if m.body.AppendResponse? && m.body.success {
        var acked := state.(matchIndex := state.matchIndex[m.from := m.body.ackLastIndex]);
        MaybeCommitOnward(core, acked, NO_EFFECTS);
        MaybeCommitOnward(core, acked.(nextIndex := acked.nextIndex[m.from := m.body.ackLastIndex + 1]), NO_EFFECTS);
      }
  }

  /** The one way a commit index could fall: a merge that cuts the log below it. */
  predicate KeepsCommit(node: Node, event: Event) {
    Appends(node, event) && FollowerRole.PrevMatches(node.core.p.log, event.message.body) ==>
      node.core.commitIndex <= FollowerRole.Merge(node.core.p.log, event.message.body.entries).LastIndex()
  }

  lemma FollowerOnward(core: Core, role: Role, event: Event)
    requires role.Follower? && KeepsCommit(Node(core, role), event)
    ensures Onward(core, FollowerRole.Step(core, role, event).core)
  {
    hide FollowerRole.Merge, FollowerRole.MergePersists;
  }

  lemma RoleOnward(node: Node, event: Event)
    requires KeepsCommit(node, event)
    ensures Onward(node.core, RoleStep(node, event).core)
  {
    hide LeaderRole.Step, FollowerRole.Step;
    match node.role
    case Leader(_) => LeaderOnward(node.core, node.role, event);
    case Follower(_) => FollowerOnward(node.core, node.role, event);
    case _ =>
  }

  lemma EventCommitGrows(node: Node, event: Event)
    requires KeepsCommit(node, event)
    ensures Onward(node.core, StepEvent(node, event).0.core)
  {
    hide RoleStep, ApplyTransition;
    RoleOnward(node, event);
    var r := RoleStep(node, event);
    TransitionStill(r.core, r.role, r.transition);
  }

  lemma ProposalCommitGrows(node: Node, command: Bytes)
    requires Propose(node, command).Proposed?
    ensures Onward(node.core, Propose(node, command).node.core)
  {
    hide LeaderRole.MaybeCommit, LeaderRole.BroadcastAppend;
    var core := node.core;
    var core' := LeaderRole.AppendCommand(core, command);
    var state := node.role.state;
    MaybeCommitOnward(core', state.(matchIndex := state.matchIndex[core.id := core'.p.log.LastIndex()]), NO_EFFECTS);
    MaybeCommitOnward(core', state, NO_EFFECTS);
  }

  // ----- Nothing committed stays unapplied -----

  /** A commit index that moves up moves to an entry of the log. */
  ghost predicate Bounded(before: Core, after: Core) {
    && before.lastApplied == after.lastApplied
    && (after.commitIndex <= before.commitIndex || after.commitIndex <= after.p.log.LastIndex())
  }

  lemma AdvanceBounded(core: Core, state: LeaderState)
    ensures Bounded(core, LeaderRole.AdvanceCommit(core, state))
  {
    hide LeaderRole.HighestCommittable, LeaderRole.Committable;
    HighestIs(core, state, core.p.log.LastIndex());
  }

  lemma LeaderBounded(voters: set<NodeId>, core: Core, role: Role, event: Event)
    requires CoreOk(voters, core) && role.Leader? && !event.DiskWriteComplete?
    ensures Bounded(core, LeaderRole.Step(core, role, event).core)
  {
    hide LeaderRole.MaybeCommit, LeaderRole.AdvanceCommit, LeaderRole.SendAppendTo, LeaderRole.BroadcastAppend, CoreOk;
    var state := role.state;
    if event.Receive? && event.message.body.AppendResponse? && event.message.body.success {
      var m := event.message;
      var acked := state.(matchIndex := state.matchIndex[m.from := m.body.ackLastIndex]);
      var moved := acked.(nextIndex := acked.nextIndex[m.from := m.body.ackLastIndex + 1]);
      MaybeCommitPlain(voters, core, acked);
      MaybeCommitPlain(voters, core, moved);
      AdvanceBounded(core, acked);
      AdvanceBounded(core, moved);
    }
  }

  lemma FollowerBounded(core: Core, role: Role, event: Event)
    requires role.Follower?
    ensures Bounded(core, FollowerRole.Step(core, role, event).core)
  {
    hide FollowerRole.Merge, FollowerRole.MergePersists;
  }

  lemma EventBounded(voters: set<NodeId>, node: Node, event: Event)
    requires NodeOk(voters, node) && !event.DiskWriteComplete?
    ensures Bounded(node.core, StepEvent(node, event).0.core)
  {
    hide RoleStep, ApplyTransition;
    RoleBounded(voters, node, event);
    var r := RoleStep(node, event);
    TransitionStill(r.core, r.role, r.transition);
  }

  lemma RoleBounded(voters: set<NodeId>, node: Node, event: Event)
    requires NodeOk(voters, node) && !event.DiskWriteComplete?
    ensures Bounded(node.core, RoleStep(node, event).core)
  {
    hide LeaderRole.Step, FollowerRole.Step, CoreOk;
    match node.role
    case Leader(_) => LeaderBounded(voters, node.core, node.role, event);
    case Follower(_) => FollowerBounded(node.core, node.role, event);
    case _ =>
  }

  lemma TransitionStill(core: Core, role: Role, transition: Transition)
    ensures var core' := ApplyTransition(core, role, transition).0.core;
            core'.commitIndex == core.commitIndex && core'.lastApplied == core.lastApplied && core'.p.log == core.p.log
  {
    hide LeaderRole.BroadcastAppend;
  }

  lemma ProposalBounded(voters: set<NodeId>, node: Node, command: Bytes)
    requires NodeOk(voters, node) && Propose(node, command).Proposed?
    ensures Bounded(node.core, Propose(node, command).node.core)
  {
    hide LeaderRole.MaybeCommit, LeaderRole.AdvanceCommit, LeaderRole.BroadcastAppend, Refined;
    var core, state := node.core, node.role.state;
    var core' := LeaderRole.AppendCommand(core, command);
    var state' := state.(matchIndex := state.matchIndex[core.id := core'.p.log.LastIndex()]);
    ProposeStepRefined(None, voters, {}, core, state, command);
    MaybeCommitPlain(voters, core', state');
    AdvanceBounded(core', state');
  }

  lemma NodeStepBounded(c: ClusterState, i: NodeId, step: Step)
    requires Possible(c, i, step) && MachineOk(c.voters, i, c.machines[i]) && !step.CrashStep?
    ensures Bounded(c.machines[i].node.core, NodeStep(c, i, step).0.core)
  {
    hide StepEvent, Propose, RequestReadIndex, TransferLeadership, NodeOk;
    var node := c.machines[i].node;
    match step
    case TickStep(expired) => EventBounded(c.voters, node, Tick(expired));
    case DeliverStep(m, recent) => EventBounded(c.voters, node, Receive(m, recent));
    case ProposeStep(command) => ProposalBounded(c.voters, node, command);
    case _ =>
  }

  /** The runtime applies everything up to the commit index, in every run. */
  lemma StepCaughtUp(c: ClusterState, i: NodeId, step: Step)
    requires Possible(c, i, step) && ClusterOk(c) && ClusterOk(Do(c, i, step)) && CaughtUp(c)
    requires NodeStep(c, i, step).1.sendSnapshots == []
    ensures CaughtUp(Do(c, i, step))
  {
    hide NodeStep, Do, NodeOk, Msgs;
    assert MachineOk(c.voters, i, c.machines[i]);
    var (node', effects) := NodeStep(c, i, step);
    var c' := Do(c, i, step);
    DoShape(c, i, step, node', effects);
    MachineFacts(c', i);
    if step.CrashStep? {
      CrashNode(c, i);
    } else {
      NodeStepBounded(c, i, step);
    }
    PlainQueries(node'.core.p.log);
    DoApplies(c, i, step, node', effects);
    AppliesAll(node'.core, if step.CrashStep? then [] else c.machines[i].applied);
  }

  lemma DoApplies(c: ClusterState, i: NodeId, step: Step, node': Node, effects: Effects)
    requires Possible(c, i, step) && NodeStep(c, i, step) == (node', effects)
    ensures Do(c, i, step).machines[i].node.core
         == ApplyCommitted(node'.core, if step.CrashStep? then [] else c.machines[i].applied).0
  {
    hide NodeStep, ApplyCommitted;
  }

  lemma AppliesAll(core: Core, applied: seq<Entry>)
    requires Plain(core.p.log) && (core.commitIndex <= core.lastApplied || core.commitIndex <= |core.p.log.entries|)
    requires forall k :: 0 <= k < |core.p.log.entries| ==> core.p.log.entries[k].payload.Command?
    ensures core.commitIndex <= ApplyCommitted(core, applied).0.lastApplied
  {
    if core.lastApplied < core.commitIndex {
      ApplyFeeds(core, applied);
    }
  }

  /** A committed prefix stays what it was. */
  lemma PrefixStays(s: P.State, h: History, s': P.State, h': History, i: NodeId)
    requires Inv(true, s, h) && Inv(true, s', h') && Extends(h, h') && s.voters == s'.voters
    requires i in s.servers && i in s'.servers && s.servers[i].commit <= s'.servers[i].commit
    ensures s.servers[i].commit <= |s.servers[i].log| && s'.servers[i].commit <= |s'.servers[i].log|
    ensures s.servers[i].log[..s.servers[i].commit] == s'.servers[i].log[..s.servers[i].commit]
  {
    hide Inv, CommitSafety.Committed, CommitSafety.Sound, Extends;
    var sv, sv' := s.servers[i], s'.servers[i];
    CommittedOf(s, h, i);
    CommittedOf(s', h', i);
    var p, q := sv.log[..sv.commit], sv'.log[..sv'.commit];
    CommitSafety.CommittedGrows(s.voters, h, h', p, sv.term, sv.term);
    CommitSafety.CommittedAgree(s.voters, h', p, q, sv.term, sv'.term);
    assert q[..sv.commit] == sv'.log[..sv.commit];
  }

  lemma CommittedOf(s: P.State, h: History, i: NodeId)
    requires Inv(true, s, h) && i in s.servers
    ensures s.servers[i].commit <= |s.servers[i].log|
    ensures CommitSafety.Committed(s.voters, h, s.servers[i].log[..s.servers[i].commit], s.servers[i].term)
    ensures CommitSafety.Sound(s.voters, h) && h.logs.Keys == h.elections.Keys
  {
    hide VoteOk, PhaseOk, VoteMessagesOk, VotesJustified, BackedBy, CommitSafety.Committed, CommitSafety.Acked;
    CommitOkOf(s, h, i);
  }

  /** An honest delivery never cuts the log below the commit index. */
  lemma DeliveryKeepsCommit(c: ClusterState, h: History, i: NodeId, m: Message, recent: bool)
    requires Possible(c, i, DeliverStep(m, recent)) && Tracks(true, c, h)
        && HonestStep(Some(h.logs), c, i, DeliverStep(m, recent))
    ensures KeepsCommit(c.machines[i].node, Receive(m, recent))
  {
    var node := c.machines[i].node;
    if Appends(node, Receive(m, recent)) && FollowerRole.PrevMatches(node.core.p.log, m.body) {
      LogFacts(true, c, h, i);
      CommittedOf(Abs(c), h, i);
      MachineFacts(c, i);
      hide Inv, AllApplied, ClusterOk, CommitSafety.Committed, CommitSafety.Sound;
      MergeKeepsCommit(c.voters, node.core, m, h);
    }
  }

  lemma MergeKeepsCommit(voters: set<NodeId>, core: Core, m: Message, h: History)
    requires m.body.AppendRequest? && core.p.term <= m.term && Plain(core.p.log)
    requires FollowerRole.PrevMatches(core.p.log, m.body) && Honest(Some(h.logs), core.p.log, m.term, m.body)
    requires LogMatching.ServerLogOk(View(core, Follower(None)), h) && LogMatching.LeaderLogsOk(h)
        && LogMatching.AppendMessageOk(m, h)
    requires CommitSafety.Sound(voters, h) && h.logs.Keys == h.elections.Keys
        && core.commitIndex <= |core.p.log.entries|
    requires CommitSafety.Committed(voters, h, core.p.log.entries[..core.commitIndex], core.p.term)
    ensures core.commitIndex <= FollowerRole.Merge(core.p.log, m.body.entries).LastIndex()
  {
    hide CommitSafety.Committed, CommitSafety.Sound, FollowerRole.Merge, P.MergeAt;
    DeliveredMergeable(core.p.log, m, h);
    MergedLog(core.p.log, m.body);
    PlainQueries(core.p.log);
    var sv := View(core, Follower(None)).(term := m.term);
    var log' := P.MergeAt(sv.log, m.body.prevLogIndex, m.body.entries);
    CommitSafety.TruthfulMatches(sv, P.Accept(m), h);
    CommitSafety.CommittedInLeader(voters, h, sv.log[..sv.commit], core.p.term, m.term);
    CommitSafety.CommitSurvives(sv.log, log', h.logs[m.term], sv.commit);
  }

  lemma MachinePrefixStays(c: ClusterState, h: History, c': ClusterState, h': History, i: NodeId)
    requires Inv(true, Abs(c), h) && Inv(true, Abs(c'), h') && Extends(h, h') && c.voters == c'.voters
    requires i in c.machines && i in c'.machines
    ensures var core, core' := c.machines[i].node.core, c'.machines[i].node.core;
            && core.commitIndex <= |core.p.log.entries| && core'.commitIndex <= |core'.p.log.entries|
            && (core.commitIndex <= core'.commitIndex ==>
                  core.p.log.entries[..core.commitIndex] == core'.p.log.entries[..core.commitIndex])
  {
    hide Inv, Extends, CommitSafety.Committed, CommitSafety.Sound;
    CommittedOf(Abs(c), h, i);
    CommittedOf(Abs(c'), h', i);
    if c.machines[i].node.core.commitIndex <= c'.machines[i].node.core.commitIndex {
      PrefixStays(Abs(c), h, Abs(c'), h', i);
    }
  }

  lemma StepKeepsApplied(c: ClusterState, h: History, i: NodeId, step: Step, h': History)
    requires i in c.machines && Possible(c, i, step) && Tracks(true, c, h) && Extends(h, h')
        && HonestStep(Some(h.logs), c, i, step)
    requires NodeStep(c, i, step).1.sendSnapshots == []
    requires Inv(true, Abs(Do(c, i, step)), h') && ClusterOk(Do(c, i, step))
    ensures AllApplied(Do(c, i, step))
  {
    hide Inv, NodeStep, Extends, ClusterOk, Do, Possible, HonestStep, KeepsCommit, Abs, View, Msgs;
    assert AppliedOk(c.machines[i]);
    var (node', effects) := NodeStep(c, i, step);
    var c' := Do(c, i, step);
    DoShape(c, i, step, node', effects);
    MachineFacts(c', i);
    MachinePrefixStays(c, h, c', h', i);
    if step.CrashStep? {
      CrashNode(c, i);
    } else {
      if step.DeliverStep? {
        DeliveryKeepsCommit(c, h, i, step.m, step.recent);
      }
      StepCommitGrows(c, i, step);
    }
    FedMachine(c, i, step, node', effects);
  }

  lemma FedMachine(c: ClusterState, i: NodeId, step: Step, node': Node, effects: Effects)
    requires Possible(c, i, step) && NodeStep(c, i, step) == (node', effects)
    requires var core := node'.core;
             && Plain(core.p.log) && core.commitIndex <= |core.p.log.entries|
             && forall k :: 0 <= k < |core.p.log.entries| ==> core.p.log.entries[k].payload.Command?
    requires var fed := if step.CrashStep? then [] else c.machines[i].applied;
             && |fed| == node'.core.lastApplied <= node'.core.commitIndex
             && fed == node'.core.p.log.entries[..node'.core.lastApplied]
    ensures AppliedOk(Do(c, i, step).machines[i])
  {
    hide NodeStep, ApplyCommitted;
    var core, fed := node'.core, if step.CrashStep? then [] else c.machines[i].applied;
    ApplyFeeds(core, fed);
    var log := core.p.log.entries;
    assert log[..core.lastApplied] + log[core.lastApplied..core.commitIndex] == log[..core.commitIndex];
  }

  lemma CrashNode(c: ClusterState, i: NodeId)
    requires i in c.machines
    ensures NodeStep(c, i, CrashStep).0.core.commitIndex == 0 == NodeStep(c, i, CrashStep).0.core.lastApplied
  {
  }

  lemma MachineFacts(c: ClusterState, i: NodeId)
    requires ClusterOk(c) && i in c.machines
    ensures var core := c.machines[i].node.core;
            Plain(core.p.log) && forall k :: 0 <= k < |core.p.log.entries| ==> core.p.log.entries[k].payload.Command?
  {
    assert MachineOk(c.voters, i, c.machines[i]);
  }
}
