/** Proposing a configuration change (consensus/basisdb-raft/src/raft/leader.rs and mod.rs), and
    what a leader's log keeps through all of them. */
module Reconfigure {
  import opened Types
  import opened Membership
  import opened RaftLog
  import opened Event
  import opened RaftCore
  import Acks
  import H = Heartbeat
  import LeaderRole
  import opened LogRules
  import Numbering
  import Proposals
  import RaftNode

  datatype ConfigError =
    | NotLeading
    | Invalid(error: ChangeError)
    | LearnerBehind(id: NodeId, have: LogIndex, need: LogIndex)

  datatype ConfigOutcome =
    | Reconfigured(node: Node, index: LogIndex, effects: Effects)
    | Refused(error: ConfigError)

  /** A configuration past the commit index. */
  predicate PendingConfig(core: Core) {
    exists k :: 0 <= k < |core.p.log.entries| && PendingAt(core, k)
  }

  predicate PendingAt(core: Core, k: nat)
    requires k < |core.p.log.entries|
  {
    core.p.log.entries[k].payload.Config? && core.p.log.entries[k].index > core.commitIndex
  }

  function Counted(core: Core, state: LeaderState): LeaderState {
    if core.opts.parallelDiskWrite then state
    else state.(matchIndex := state.matchIndex[core.id := core.p.log.LastIndex()])
  }

  /** The new configuration is appended, perhaps committed, and sent. */
  function Append(core: Core, state: LeaderState, config: Configuration): LeaderRole.CommitResult {
    var core' := LeaderRole.WithTarget(core, config);
    var committed := LeaderRole.MaybeCommit(core', LeaderRole.ReinitProgress(core', Counted(core', state)));
    var (state', effects) := LeaderRole.BroadcastAppend(committed.core, committed.state);
    committed.(state := state', effects := effects.WithPersist().Merge(committed.effects))
  }

  /** The first reason to refuse a change, if there is one. */
  function Refusal(core: Core, state: LeaderState, change: Change, mode: Mode): Option<ConfigError> {
    match Validate(change, core.EffectiveConfig(), mode)
    case Some(e) => Some(Invalid(e))
    case None =>
      var last := core.p.log.LastIndex();
      if change.AddVoter? && state.MatchOf(change.id) < last then
        Some(LearnerBehind(change.id, state.MatchOf(change.id), last))
      else if PendingConfig(core) then Some(Invalid(ChangeInProgress))
      else None
  }

  function ProposeChange(node: Node, change: Change, mode: Mode): ConfigOutcome {
    match node.role
    case Leader(state) =>
      (match Refusal(node.core, state, change, mode)
       case Some(e) => Refused(e)
       case None =>
         var r := Append(node.core, state, Membership.Apply(change, node.core.EffectiveConfig(), mode));
         var role := if r.stepDown then Follower(None) else Leader(r.state);
         Reconfigured(Node(r.core, role), node.core.p.log.LastIndex() + 1, r.effects))
    case _ => Refused(NotLeading)
  }

  // ----- When a change is taken, and where it goes -----

  lemma PendingIff(core: Core)
    requires core.p.log.Contiguous()
    ensures PendingConfig(core) <==> exists i: LogIndex :: i > core.commitIndex && HasConfig(core.p.log, i)
  {
    var log := core.p.log;
    if k :| 0 <= k < |log.entries| && PendingAt(core, k) {
      assert HasConfig(log, log.snapshotIndex + 1 + k);
    }
    if i: LogIndex :| i > core.commitIndex && HasConfig(log, i) {
      assert PendingAt(core, i - log.snapshotIndex - 1);
    }
  }

  /** A leader takes a change exactly if it is acceptable, a learner to be promoted has the whole
      log, and no configuration is uncommitted. */
  lemma ChangeIff(node: Node, change: Change, mode: Mode)
    requires node.core.p.log.Contiguous()
    ensures ProposeChange(node, change, mode).Reconfigured? <==>
            && node.role.Leader? && Validate(change, node.core.EffectiveConfig(), mode) == None
            && (change.AddVoter? ==> node.role.state.MatchOf(change.id) >= node.core.p.log.LastIndex())
            && (forall i: LogIndex :: i > node.core.commitIndex ==> !HasConfig(node.core.p.log, i))
  {
    hide Append, Validate, Core.EffectiveConfig;
    PendingIff(node.core);
  }

  /** The configuration the change makes goes where nothing was, with the leader's term. Before it
      the log is as it was, after it come configurations that the commit loop appended; it is to be
      saved, and every other member it has is sent the log from where it is to go on. */
  lemma ChangePlaced(node: Node, change: Change, mode: Mode)
    requires node.core.p.log.Contiguous() && ProposeChange(node, change, mode).Reconfigured?
    ensures var (r, core) := (ProposeChange(node, change, mode), node.core);
            var entry := Entry(core.p.term, r.index, Config(Membership.Apply(change, core.EffectiveConfig(), mode)));
            && r.effects.persist && core.p.log.Get(r.index) == None
            && r.index == core.p.log.LastIndex() + 1
            && Proposals.CoreGrows(core.WithLog(core.p.log.Append(entry)), r.node.core)
            && r.node.core.p.log.Contiguous() && r.node.core.p.log.Get(r.index) == Some(entry)
            && forall x: NodeId :: H.Other(r.node.core, x) ==> Acks.Informed(r.node.core, x, r.effects)
  {
    hide LeaderRole.MaybeCommit, LeaderRole.BroadcastAppend, LeaderRole.ReinitProgress, Refusal, Membership.Apply,
         H.Other, Acks.Informed;
    var core, state := node.core, node.role.state;
    var core' := LeaderRole.WithTarget(core, Membership.Apply(change, core.EffectiveConfig(), mode));
    var state' := LeaderRole.ReinitProgress(core', Counted(core', state));
    Proposals.CommitGrows(core', state', NO_EFFECTS);
    Numbering.MaybeCommitNumbered(core', state', NO_EFFECTS);
    var committed := LeaderRole.MaybeCommit(core', state');
    Acks.BroadcastInforms(committed.core, committed.state, committed.effects);
  }

  // ----- What a leader's log keeps -----

  /** At most one configuration is uncommitted. */
  ghost predicate OnePending(core: Core) {
    forall i: LogIndex, j: LogIndex ::
      core.commitIndex < i < j && HasConfig(core.p.log, i) ==> !HasConfig(core.p.log, j)
  }

  /** Every configuration of the log is sound, and its quorums meet those of the one in force
      before it. */
  ghost predicate Chained(core: Core) {
    && Sound(core.ConfigAt(core.p.log.snapshotIndex))
    && forall i: LogIndex :: HasConfig(core.p.log, i) ==> LinkedAt(core, i)
  }

  ghost predicate LinkedAt(core: Core, i: LogIndex)
    requires HasConfig(core.p.log, i)
  {
    var config := core.p.log.Get(i).value.payload.config;
    Sound(config) && QuorumsMeet(core.ConfigAt(i - 1), config)
  }

  ghost predicate Kept(core: Core) {
    core.p.log.Contiguous() && OnePending(core) && Chained(core)
  }

  /** The last configuration up to an index, if the log has one. */
  lemma {:induction false} LastConfig(log: Log, n: LogIndex) returns (found: bool, i: LogIndex)
    ensures found ==> i <= n && HasConfig(log, i) && forall j: LogIndex :: i < j <= n ==> !HasConfig(log, j)
    ensures !found ==> forall j: LogIndex :: j <= n ==> !HasConfig(log, j)
  {
    if HasConfig(log, n) {
      return true, n;
    }
    if n == 0 {
      return false, 0;
    }
    found, i := LastConfig(log, n - 1);
  }

  lemma SoundAt(core: Core, n: LogIndex)
    requires core.p.log.Contiguous() && Chained(core)
    ensures Sound(core.ConfigAt(n))
  {
    hide Sound, QuorumsMeet, Log.Contiguous, Log.ConfigAt;
    var found, i := LastConfig(core.p.log, n);
    if found {
      ConfigIs(core.p.log, n, i);
      assert LinkedAt(core, i);
    } else {
      ConfigOfSnapshot(core.p.log, n);
      SnapshotConfigIs(core.p.log);
    }
  }

  lemma SnapshotConfigIs(log: Log)
    ensures log.ConfigAt(log.snapshotIndex) == log.snapshotConfig
  {
  }

  /** What comes later in a log does not change the configuration before. */
  lemma ConfigBefore(log: Log, log': Log, n: LogIndex)
    requires log'.(entries := log.entries) == log && log.entries <= log'.entries
    requires log.Contiguous() && n <= log.LastIndex()
    ensures log'.ConfigAt(n) == log.ConfigAt(n)
  {
    if n > log.snapshotIndex {
      EntriesAt(log, n);
      assert log'.entries[..n - log.snapshotIndex] == log.entries[..n - log.snapshotIndex];
    }
  }

  /** Appending an entry keeps the chain if, being a configuration, it is sound and its quorums
      meet those of the configuration in force. */
  lemma AppendChained(core: Core, entry: Entry)
    requires core.p.log.Contiguous() && Chained(core) && entry.index == core.p.log.LastIndex() + 1
    requires entry.payload.Config? ==>
               Sound(entry.payload.config) && QuorumsMeet(core.EffectiveConfig(), entry.payload.config)
    ensures Chained(core.WithLog(core.p.log.Append(entry)))
  {
    hide Sound, QuorumsMeet, Log.ConfigAt, Log.Contiguous, Log.LastIndex, Log.Get;
    var core' := core.WithLog(core.p.log.Append(entry));
    EntriesAt(core.p.log, 0);
    ConfigBefore(core.p.log, core'.p.log, core.p.log.snapshotIndex);
    forall i: LogIndex | HasConfig(core'.p.log, i) ensures LinkedAt(core', i) {
      AppendedAt(core.p.log, entry, i);
      EntriesAt(core'.p.log, i);
      ConfigBefore(core.p.log, core'.p.log, i - 1);
      if i != entry.index {
        assert LinkedAt(core, i);
      }
    }
  }

  // ----- The commit loop -----

  lemma {:induction false} ContinueIs(core: Core, state: LeaderState, index: LogIndex) returns (i: LogIndex)
    requires index > 0 && LeaderRole.ProcessCommitted(core, state, index).Continue?
    ensures index <= i <= core.commitIndex && HasConfig(core.p.log, i) && core.p.log.Get(i).value.payload.config.Joint?
    ensures LeaderRole.ProcessCommitted(core, state, index).core
         == LeaderRole.WithTarget(core, core.p.log.Get(i).value.payload.config.TransitionTarget().value)
    decreases core.commitIndex + 1 - index
  {
    hide LeaderRole.BroadcastAppend, LeaderRole.ReinitProgress, LeaderRole.AutoTransfer, LeaderRole.JointsPast;
    if HasConfig(core.p.log, index) && core.p.log.Get(index).value.payload.config.Joint? {
      i := index;
    } else {
      i := ContinueIs(core, state, index + 1);
    }
  }

  lemma AdvanceKept(core: Core, c: LogIndex)
    requires Kept(core) && c >= core.commitIndex
    ensures Kept(core.(commitIndex := c))
  {
    hide Sound, QuorumsMeet, HasConfig;
    var core' := core.(commitIndex := c);
    forall i: LogIndex | HasConfig(core'.p.log, i) ensures LinkedAt(core', i) {
      assert LinkedAt(core, i);
    }
  }

  /** The target of the only uncommitted configuration, once that is committed, follows it. */
  lemma TargetKept(core: Core, c: LogIndex, i: LogIndex)
    requires Kept(core) && core.commitIndex < i <= c
    requires HasConfig(core.p.log, i) && core.p.log.Get(i).value.payload.config.Joint?
    ensures var target := core.p.log.Get(i).value.payload.config.TransitionTarget().value;
            Kept(LeaderRole.WithTarget(core.(commitIndex := c), target))
  {
    hide Sound, QuorumsMeet, Log.ConfigAt, Log.Contiguous, Log.LastIndex, Log.Get;
    var (log, advanced) := (core.p.log, core.(commitIndex := c));
    var joint := log.Get(i).value.payload.config;
    assert LinkedAt(core, i);
    EntriesAt(log, i);
    ConfigIs(log, log.LastIndex(), i);
    CompletionIsSafe(joint);
    AdvanceKept(core, c);
    var entry := Entry(core.p.term, log.LastIndex() + 1, Config(joint.TransitionTarget().value));
    AppendChained(advanced, entry);
    forall j: LogIndex ensures log.Append(entry).Contiguous() && (HasConfig(log.Append(entry), j) ==>
                                                                   j == entry.index || HasConfig(log, j)) {
      AppendedAt(log, entry, j);
    }
    assert log.Append(entry).Contiguous() by { AppendedAt(log, entry, 0); }
  }

  lemma {:induction false} CommitKept(core: Core, state: LeaderState, effects: Effects)
    requires Kept(core)
    ensures Kept(LeaderRole.MaybeCommit(core, state, effects).core)
    decreases LeaderRole.JointsPast(core.p.log, core.commitIndex)
  {
    hide LeaderRole.AdvanceCommit, LeaderRole.JointsPast, Kept, LeaderRole.ProcessCommitted, HasConfig, Acks.Reaches;
    var advanced := LeaderRole.AdvanceCommit(core, state);
    Acks.AdvanceReaches(core, state);
    Acks.ReachesUp(core, state, advanced.commitIndex);
    if advanced.commitIndex != core.commitIndex {
      AdvanceKept(core, advanced.commitIndex);
      var next := LeaderRole.ProcessCommitted(advanced, state, core.commitIndex + 1);
      if next.Continue? {
        var i := ContinueIs(advanced, state, core.commitIndex + 1);
        TargetKept(core, advanced.commitIndex, i);
        CommitKept(next.core, next.state, effects.Merge(next.effects));
      }
    }
  }

  // ----- Whatever a leader does -----

  lemma CommandKept(core: Core, command: Bytes)
    requires Kept(core)
    ensures Kept(LeaderRole.AppendCommand(core, command))
  {
    hide Sound, QuorumsMeet, Log.ConfigAt, Log.Contiguous, Log.LastIndex, Log.Get;
    var (log, entry) := (core.p.log, Entry(core.p.term, core.p.log.LastIndex() + 1, Command(command)));
    AppendChained(core, entry);
    AppendedAt(log, entry, 0);
    forall j: LogIndex | HasConfig(log.Append(entry), j) ensures HasConfig(log, j) {
      AppendedAt(log, entry, j);
    }
  }

  lemma ProposalKept(node: Node, command: Bytes)
    requires Kept(node.core) && RaftNode.Propose(node, command).Proposed?
    ensures Kept(RaftNode.Propose(node, command).node.core)
  {
    hide LeaderRole.MaybeCommit, LeaderRole.BroadcastAppend, Kept;
    var core, state := node.core, node.role.state;
    var core' := LeaderRole.AppendCommand(core, command);
    CommandKept(core, command);
    CommitKept(core', state, NO_EFFECTS);
    CommitKept(core', state.(matchIndex := state.matchIndex[core.id := core'.p.log.LastIndex()]), NO_EFFECTS);
  }

  lemma NewConfigKept(core: Core, change: Change, mode: Mode)
    requires Kept(core) && Validate(change, core.EffectiveConfig(), mode) == None && !PendingConfig(core)
    ensures Kept(LeaderRole.WithTarget(core, Membership.Apply(change, core.EffectiveConfig(), mode)))
  {
    hide Sound, QuorumsMeet, Log.ConfigAt, Log.Contiguous, Log.LastIndex, Log.Get, PendingConfig, Validate,
         Membership.Apply;
    var (log, current) := (core.p.log, core.EffectiveConfig());
    SoundAt(core, log.LastIndex());
    ValidatedChangeIsSafe(change, current, mode);
    PendingIff(core);
    var entry := Entry(core.p.term, log.LastIndex() + 1, Config(Membership.Apply(change, current, mode)));
    AppendChained(core, entry);
    AppendedAt(log, entry, 0);
    forall j: LogIndex | HasConfig(log.Append(entry), j) ensures j == entry.index || HasConfig(log, j) {
      AppendedAt(log, entry, j);
    }
  }

  lemma ChangeKept(node: Node, change: Change, mode: Mode)
    requires Kept(node.core) && ProposeChange(node, change, mode).Reconfigured?
    ensures Kept(ProposeChange(node, change, mode).node.core)
  {
    hide LeaderRole.MaybeCommit, LeaderRole.BroadcastAppend, LeaderRole.ReinitProgress, Kept, Validate,
         Membership.Apply, PendingConfig, LeaderRole.WithTarget;
    var core, state := node.core, node.role.state;
    NewConfigKept(core, change, mode);
    var core' := LeaderRole.WithTarget(core, Membership.Apply(change, core.EffectiveConfig(), mode));
    CommitKept(core', LeaderRole.ReinitProgress(core', Counted(core', state)), NO_EFFECTS);
  }

  /** Term, vote and what is applied do not matter to it. */
  ghost predicate SameLog(core: Core, core': Core) {
    && core'.p.log == core.p.log && core'.p.bootstrap == core.p.bootstrap && core'.commitIndex == core.commitIndex
  }

  lemma SameLogKept(core: Core, core': Core)
    requires Kept(core) && SameLog(core, core')
    ensures Kept(core')
  {
    hide Sound, QuorumsMeet, HasConfig;
    forall i: LogIndex | HasConfig(core'.p.log, i) ensures LinkedAt(core', i) {
      assert LinkedAt(core, i);
    }
  }

  /** The event is not a request that a follower may merge into its log. */
  predicate Apart(node: Node, event: Event) {
    node.role.Follower? && event.Receive? ==> !event.message.body.AppendRequest?
  }

  lemma LeaderStepKept(core: Core, role: Role, event: Event)
    requires role.Leader? && Kept(core)
    ensures Kept(LeaderRole.Step(core, role, event).core)
  {
    hide LeaderRole.MaybeCommit, LeaderRole.SendAppendTo, LeaderRole.BroadcastAppend, Kept, Core.EffectiveConfig;
    var (state, r) := (role.state, LeaderRole.Step(core, role, event));
    match event
    case Tick(_) =>
    case DiskWriteComplete(index) =>
      CommitKept(core, state.(matchIndex := state.matchIndex[core.id := index]), NO_EFFECTS);
    case Receive(m, _) =>
      if m.body.AppendResponse? && m.body.success && m.term == core.p.term {
        var acked := state.(matchIndex := state.matchIndex[m.from := m.body.ackLastIndex]);
        CommitKept(core, acked, NO_EFFECTS);
        CommitKept(core, acked.(nextIndex := acked.nextIndex[m.from := m.body.ackLastIndex + 1]), NO_EFFECTS);
      } else {
        SameLogKept(core, r.core);
      }
  }

  lemma OtherStepSame(node: Node, event: Event)
    requires !node.role.Leader? && Apart(node, event)
    ensures SameLog(node.core, RaftNode.RoleStep(node, event).core)
  {
    hide Core.EffectiveConfig;
  }

  lemma TransitionSame(core: Core, role: Role, transition: Transition)
    ensures SameLog(core, RaftNode.ApplyTransition(core, role, transition).0.core)
  {
    hide LeaderRole.BroadcastAppend, Core.EffectiveConfig;
  }

  lemma EventKept(node: Node, event: Event)
    requires Kept(node.core) && Apart(node, event)
    ensures Kept(RaftNode.StepEvent(node, event).0.core)
  {
    hide RaftNode.RoleStep, RaftNode.ApplyTransition, Kept, SameLog;
    var r := RaftNode.RoleStep(node, event);
    if node.role.Leader? {
      LeaderStepKept(node.core, node.role, event);
      LeaderRoleStep(node, event);
    } else {
      OtherStepSame(node, event);
      SameLogKept(node.core, r.core);
    }
    TransitionSame(r.core, r.role, r.transition);
    SameLogKept(r.core, RaftNode.ApplyTransition(r.core, r.role, r.transition).0.core);
  }

  lemma LeaderRoleStep(node: Node, event: Event)
    requires node.role.Leader?
    ensures RaftNode.RoleStep(node, event) == LeaderRole.Step(node.core, node.role, event)
  {
  }

  /** What a node may do, merging apart. */
  datatype Act = Meets(event: Event) | Proposes(command: Bytes) | Changes(change: Change)

  ghost predicate Acts(node: Node, act: Act, mode: Mode, node': Node) {
    match act
    case Meets(event) => Apart(node, event) && node' == RaftNode.StepEvent(node, event).0
    case Proposes(command) =>
      var r := RaftNode.Propose(node, command);
      r.Proposed? && node' == r.node
    case Changes(change) =>
      var r := ProposeChange(node, change, mode);
      r.Reconfigured? && node' == r.node
  }

  /** Whatever a node does, from any log in which at most one configuration is uncommitted and the
      quorums of each meet those of the one before, its log stays such a log: through proposals,
      changes of every kind, acknowledgements, the completion of joint configurations, elections
      and stepping down. */
  lemma {:induction false} ReconfiguredSafely(nodes: seq<Node>, acts: seq<Act>, mode: Mode, k: nat)
    requires |nodes| == |acts| + 1 && Kept(nodes[0].core) && k < |nodes|
    requires forall n :: 0 <= n < |acts| ==> Acts(nodes[n], acts[n], mode, nodes[n + 1])
    ensures OnePending(nodes[k].core) && Chained(nodes[k].core) && nodes[k].core.p.log.Contiguous()
  {
    var n := 0;
    while n < k
      invariant n <= k && Kept(nodes[n].core)
    {
      assert Acts(nodes[n], acts[n], mode, nodes[n + 1]);
      ActKept(nodes[n], acts[n], mode, nodes[n + 1]);
      n := n + 1;
    }
  }

  lemma ActKept(node: Node, act: Act, mode: Mode, node': Node)
    requires Kept(node.core) && Acts(node, act, mode, node')
    ensures Kept(node'.core)
  {
    hide Kept, RaftNode.StepEvent, RaftNode.Propose, ProposeChange;
    match act
    case Meets(event) => EventKept(node, event);
    case Proposes(command) => ProposalKept(node, command);
    case Changes(change) => ChangeKept(node, change, mode);
  }

  /** A new node with voters has such a log. */
  lemma StartsKept(id: NodeId, opts: Options, voters: set<NodeId>)
    requires voters != {}
    ensures Kept(RaftNode.NewNode(id, opts, voters).core)
  {
    var core := RaftNode.NewNode(id, opts, voters).core;
    assert forall i: LogIndex :: !HasConfig(core.p.log, i);
  }
}
