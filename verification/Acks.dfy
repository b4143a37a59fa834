/** What an acknowledgement does to a leader (consensus/basisdb-raft/src/raft/leader.rs). */
module Acks {
  import opened Types
  import opened Membership
  import opened RaftLog
  import opened Event
  import opened RaftCore
  import CommitLoop
  import H = Heartbeat
  import LeaderRole
  import opened LogRules
  import Numbering
  import Proposals
  import RaftNode

  /** The current term has the entry at `i`, and a majority of every set of voters in force is
      known to hold the log up to there. */
  predicate Held(core: Core, state: LeaderState, i: LogIndex) {
    && core.p.log.TermAt(i) == core.p.term
    && match core.EffectiveConfig()
       case Simple(voters, _) => MostHold(state, voters, i)
       case Joint(outgoing, incoming, _) => MostHold(state, outgoing, i) && MostHold(state, incoming, i)
  }

  predicate MostHold(state: LeaderState, voters: set<NodeId>, i: LogIndex) {
    2 * |set x | x in voters && state.MatchOf(x) >= i| > |voters|
  }

  /** The commit index is to become `c`: the last index that is held, or stay. */
  ghost predicate Reaches(core: Core, state: LeaderState, c: LogIndex) {
    && core.commitIndex <= c
    && (c > core.commitIndex ==> c <= core.p.log.LastIndex() && Held(core, state, c))
    && forall i :: c < i <= core.p.log.LastIndex() ==> !Held(core, state, i)
  }

  lemma HeldIff(core: Core, state: LeaderState, i: LogIndex)
    ensures LeaderRole.Committable(core, state, i) <==> Held(core, state, i)
  {
    var config, matched := core.EffectiveConfig(), LeaderRole.Matched(core, state, i);
    QuorumIff(config, matched);
    if config.Simple? {
      assert config.voters * matched == set x | x in config.voters && state.MatchOf(x) >= i;
    } else {
      assert config.outgoing * matched == set x | x in config.outgoing && state.MatchOf(x) >= i;
      assert config.incoming * matched == set x | x in config.incoming && state.MatchOf(x) >= i;
    }
  }

  lemma AdvanceReaches(core: Core, state: LeaderState)
    ensures var core' := LeaderRole.AdvanceCommit(core, state); core' == core.(commitIndex := core'.commitIndex)
    ensures Reaches(core, state, LeaderRole.AdvanceCommit(core, state).commitIndex)
  {
    hide LeaderRole.HighestCommittable, LeaderRole.Committable, Held, Log.LastIndex;
    CommitLoop.HighestIs(core, state, core.p.log.LastIndex());
    forall i ensures LeaderRole.Committable(core, state, i) <==> Held(core, state, i) {
      HeldIff(core, state, i);
    }
  }

  /** There is one such index. */
  lemma ReachesOne(core: Core, state: LeaderState, c: LogIndex, d: LogIndex)
    requires Reaches(core, state, c) && Reaches(core, state, d)
    ensures c == d
  {
    hide Held;
  }

  // ----- Configurations that are committed -----

  /** The scan of committed configurations ends at a joint one and at one without this server. */
  predicate Stops(core: Core, i: LogIndex) {
    HasConfig(core.p.log, i) &&
    (core.p.log.Get(i).value.payload.config.Joint? || !core.p.log.Get(i).value.payload.config.IsVoter(core.id))
  }

  lemma {:induction false} ScansOn(core: Core, state: LeaderState, from: LogIndex, i: LogIndex)
    requires 0 < from <= i <= core.commitIndex + 1
    requires forall j: LogIndex :: from <= j < i ==> !Stops(core, j)
    ensures LeaderRole.ProcessCommitted(core, state, from) == LeaderRole.ProcessCommitted(core, state, i)
    decreases i - from
  {
    hide LeaderRole.AppendTarget, LeaderRole.AutoTransfer, LeaderRole.JointsPast;
    if from < i {
      assert !Stops(core, from);
      ScansOn(core, state, from + 1, i);
    }
  }

  /** A voter other than this server that is known to have the whole log. */
  predicate CaughtUp(core: Core, state: LeaderState, config: Configuration, x: NodeId) {
    x != core.id && config.IsVoter(x) && state.MatchOf(x) >= core.p.log.LastIndex()
  }

  lemma {:induction false} TargetIs(core: Core, state: LeaderState, voters: seq<NodeId>)
    ensures match LeaderRole.TransferTarget(core, state, voters)
            case Some(x) => x in voters && x != core.id && state.MatchOf(x) >= core.p.log.LastIndex()
            case None => forall x :: x in voters && x != core.id ==> state.MatchOf(x) < core.p.log.LastIndex()
  {
    if voters != [] {
      TargetIs(core, state, voters[1..]);
    }
  }

  /** Hands leadership to such a voter of the configuration, if there is one. */
  ghost predicate HandsOver(core: Core, state: LeaderState, config: Configuration, e: Effects) {
    && !e.persist && e.sendSnapshots == []
    && (e.messages == [] ==> forall x :: !CaughtUp(core, state, config, x))
    && (e.messages != [] ==>
          exists x :: CaughtUp(core, state, config, x) && e.messages == [Message(core.id, x, core.p.term, TimeoutNow)])
  }

  lemma TransferHandsOver(core: Core, state: LeaderState, config: Configuration)
    ensures HandsOver(core, state, config, LeaderRole.AutoTransfer(core, state, config))
  {
    QuorumIff(config, {});
    TargetIs(core, state, config.Voters());
    var e := LeaderRole.AutoTransfer(core, state, config);
    match LeaderRole.TransferTarget(core, state, config.Voters())
    case Some(x) => assert CaughtUp(core, state, config, x);
    case None =>
  }

  /** What moving the commit index to `c` does. Without a configuration at which the scan ends
      it does only that. If the first of those is without this server, the server stops leading
      and hands over; if it is joint, its target is appended and saved. */
  ghost predicate Commits(core: Core, state: LeaderState, c: LogIndex, node: Node, e: Effects) {
    && ((forall i: LogIndex :: core.commitIndex < i <= c ==> !Stops(core, i)) ==>
          node == Node(core.(commitIndex := c), Leader(state)) && e == NO_EFFECTS)
    && (forall i: LogIndex ::
          core.commitIndex < i <= c && Stops(core, i)
              && (forall j: LogIndex :: core.commitIndex < j < i ==> !Stops(core, j)) ==>
            Halts(core, state, c, core.p.log.Get(i).value.payload.config, node, e))
  }

  ghost predicate Halts(core: Core, state: LeaderState, c: LogIndex, config: Configuration, node: Node, e: Effects) {
    if !config.IsVoter(core.id)
      then node == Node(core.(commitIndex := c), Follower(None)) && HandsOver(core, state, config, e)
    else config.Joint? && Completes(core, c, config, node.core, e)
  }

  /** The simple configuration that ends a joint one follows the log, is to be saved, and is sent
      to the members that it has. */
  ghost predicate Completes(core: Core, c: LogIndex, config: Configuration, core': Core, e: Effects)
    requires config.Joint?
  {
    var next, grown := core.p.log.LastIndex() + 1, Completed(core, c, config);
    && e.persist && core'.commitIndex >= c && Proposals.CoreGrows(core, core')
    && core'.p.log.Get(next) == Some(Entry(core.p.term, next, Config(Simple(config.incoming, config.learners))))
    && forall x: NodeId :: H.Other(grown, x) ==> Informed(grown, x, e)
  }

  predicate Informed(core: Core, to: NodeId, e: Effects) {
    || (exists m ::
          m in e.messages && m.to == to && m.body.AppendRequest? && H.Resumes(core, m.body.prevLogIndex + 1, m))
    || H.Offer(core, to) in e.sendSnapshots
  }

  lemma {:induction false} EffectsKept(core: Core, state: LeaderState, effects: Effects)
    ensures var e := LeaderRole.MaybeCommit(core, state, effects).effects;
            && (effects.persist ==> e.persist)
            && effects.messages <= e.messages && effects.sendSnapshots <= e.sendSnapshots
    decreases LeaderRole.JointsPast(core.p.log, core.commitIndex)
  {
    hide LeaderRole.HighestCommittable, LeaderRole.JointsPast, LeaderRole.ProcessCommitted;
    var advanced := LeaderRole.AdvanceCommit(core, state);
    if advanced.commitIndex != core.commitIndex {
      var next := LeaderRole.ProcessCommitted(advanced, state, core.commitIndex + 1);
      if next.Continue? {
        EffectsKept(next.core, next.state, effects.Merge(next.effects));
      }
    }
  }

  /** The node that the commit loop leaves. */
  function Left(r: LeaderRole.CommitResult): Node {
    Node(r.core, if r.stepDown then Follower(None) else Leader(r.state))
  }

  lemma LoopCommits(core: Core, state: LeaderState) returns (c: LogIndex)
    requires core.p.log.Contiguous()
    ensures Reaches(core, state, c)
    ensures var r := LeaderRole.MaybeCommit(core, state); Commits(core, state, c, Left(r), r.effects)
  {
    hide LeaderRole.AdvanceCommit, LeaderRole.ProcessCommitted, LeaderRole.JointsPast, Reaches, Halts;
    AdvanceReaches(core, state);
    var advanced := LeaderRole.AdvanceCommit(core, state);
    c := advanced.commitIndex;
    var r := LeaderRole.MaybeCommit(core, state);
    ReachesUp(core, state, c);
    if c > core.commitIndex {
      forall i: LogIndex | core.commitIndex < i <= c ensures Stops(advanced, i) == Stops(core, i) {
        StopsSame(core, c, i);
      }
      if forall i: LogIndex :: core.commitIndex < i <= c ==> !Stops(core, i) {
        ScansOn(advanced, state, core.commitIndex + 1, c + 1);
        ScanEnds(advanced, state);
      }
      forall i: LogIndex
        | core.commitIndex < i <= c && Stops(core, i)
            && forall j: LogIndex :: core.commitIndex < j < i ==> !Stops(core, j)
        ensures Halts(core, state, c, core.p.log.Get(i).value.payload.config, Left(r), r.effects)
      {
        ScansOn(advanced, state, core.commitIndex + 1, i);
        LoopHalts(core, state, c, i);
      }
    }
  }

  lemma ReachesUp(core: Core, state: LeaderState, c: LogIndex)
    requires Reaches(core, state, c)
    ensures core.commitIndex <= c
  {
  }

  lemma StopsSame(core: Core, c: LogIndex, i: LogIndex)
    ensures Stops(core.(commitIndex := c), i) == Stops(core, i)
  {
  }

  lemma ScanEnds(core: Core, state: LeaderState)
    ensures LeaderRole.ProcessCommitted(core, state, core.commitIndex + 1) == LeaderRole.Done
  {
  }

  lemma LoopHalts(core: Core, state: LeaderState, c: LogIndex, i: LogIndex)
    requires core.p.log.Contiguous() && core.commitIndex < i <= c && Stops(core, i)
    requires LeaderRole.AdvanceCommit(core, state) == core.(commitIndex := c)
    requires var advanced := core.(commitIndex := c);
             LeaderRole.ProcessCommitted(advanced, state, core.commitIndex + 1)
             == LeaderRole.ProcessCommitted(advanced, state, i)
    ensures var r := LeaderRole.MaybeCommit(core, state);
            Halts(core, state, c, core.p.log.Get(i).value.payload.config, Left(r), r.effects)
  {
    hide LeaderRole.AdvanceCommit, LeaderRole.JointsPast, LeaderRole.AppendTarget, LeaderRole.AutoTransfer, HandsOver,
         Proposals.CoreGrows, H.Resumes, H.Other, LeaderRole.MaybeCommit;
    LoopUnfolds(core, state, c);
    var advanced, config := core.(commitIndex := c), core.p.log.Get(i).value.payload.config;
    if !config.IsVoter(core.id) {
      TransferHandsOver(advanced, state, config);
      var e := LeaderRole.AutoTransfer(advanced, state, config);
      HandsOverSame(core, c, state, config, e);
      assert NO_EFFECTS.Merge(e) == e;
    } else {
      var (core', state', more) := LeaderRole.AppendTarget(advanced, state, config.TransitionTarget().value);
      hide LeaderRole.ProcessCommitted;
      TargetAppended(core, c, state, config);
      CompletedIs(core, c, config);
      EffectsKept(core', state', NO_EFFECTS.Merge(more));
      Proposals.CommitGrows(core', state', NO_EFFECTS.Merge(more));
      CommitLoop.CommitMaximal(core', state', NO_EFFECTS.Merge(more));
      var r := LeaderRole.MaybeCommit(core', state', NO_EFFECTS.Merge(more));
      GrownOver(core, c, core', r.core);
      forall x: NodeId | H.Other(core', x) ensures Informed(core', x, r.effects) {
        StillInformed(core', x, more, r.effects);
      }
    }
  }

  lemma LoopUnfolds(core: Core, state: LeaderState, c: LogIndex)
    requires LeaderRole.AdvanceCommit(core, state) == core.(commitIndex := c) && c > core.commitIndex
    ensures var next := LeaderRole.ProcessCommitted(core.(commitIndex := c), state, core.commitIndex + 1);
            var r := LeaderRole.MaybeCommit(core, state, NO_EFFECTS);
            && (next.Continue? ==> r == LeaderRole.MaybeCommit(next.core, next.state, NO_EFFECTS.Merge(next.effects)))
            && (next.StepDown? ==>
                  r == LeaderRole.CommitResult(core.(commitIndex := c), state, NO_EFFECTS.Merge(next.effects), true))
  {
    hide LeaderRole.AdvanceCommit, LeaderRole.ProcessCommitted;
  }

  lemma StillInformed(core: Core, to: NodeId, e: Effects, e': Effects)
    requires Informed(core, to, e) && e.messages <= e'.messages && e.sendSnapshots <= e'.sendSnapshots
    ensures Informed(core, to, e')
  {
    hide H.Resumes;
    if m :| m in e.messages && m.to == to && m.body.AppendRequest? && H.Resumes(core, m.body.prevLogIndex + 1, m) {
      assert m in e'.messages;
    }
  }

  lemma ServedInformed(core: Core, state: LeaderState, to: NodeId, e: Effects)
    requires H.Served(core, state, to, e)
    ensures Informed(core, to, e)
  {
    hide H.Resumes;
    if state.NextOf(to) > core.p.log.snapshotIndex {
      var m :| m in e.messages && m.to == to && H.Resumes(core, state.NextOf(to), m);
      H.ResumesThere(core, state.NextOf(to), m);
    }
  }

  lemma BroadcastInforms(core: Core, state: LeaderState, more: Effects)
    requires core.p.log.Contiguous()
    ensures var e := LeaderRole.BroadcastAppend(core, state).1.WithPersist().Merge(more);
            forall x: NodeId :: H.Other(core, x) ==> Informed(core, x, e)
  {
    hide LeaderRole.BroadcastAppend, H.Served, H.Resumes, H.Other, Informed, Log.Contiguous;
    H.BroadcastIs(core, state);
    var e := LeaderRole.BroadcastAppend(core, state).1;
    forall x: NodeId | H.Other(core, x) ensures Informed(core, x, e.WithPersist().Merge(more)) {
      ServedInformed(core, state, x, e);
      StillInformed(core, x, e, e.WithPersist().Merge(more));
    }
  }

  /** The log with the target of a joint configuration. */
  function Completed(core: Core, c: LogIndex, config: Configuration): Core
    requires config.Joint?
  {
    var target := Entry(core.p.term, core.p.log.LastIndex() + 1, Config(Simple(config.incoming, config.learners)));
    core.(commitIndex := c).WithLog(core.p.log.Append(target))
  }

  lemma CompletedIs(core: Core, c: LogIndex, config: Configuration)
    requires config.Joint? && core.p.log.Contiguous()
    ensures var (core', next) := (Completed(core, c, config), core.p.log.LastIndex() + 1);
            && core' == LeaderRole.WithTarget(core.(commitIndex := c), config.TransitionTarget().value)
            && Proposals.CoreGrows(core, core'.(commitIndex := core.commitIndex)) && core'.p.log.Contiguous()
            && core'.p.log.Get(next) == Some(Entry(core.p.term, next, Config(Simple(config.incoming, config.learners))))
  {
  }

  lemma TargetAppended(core: Core, c: LogIndex, state: LeaderState, config: Configuration)
    requires config.Joint? && core.p.log.Contiguous()
    ensures var target := config.TransitionTarget().value;
            var (core', _, e) := LeaderRole.AppendTarget(core.(commitIndex := c), state, target);
            && e.persist && core' == Completed(core, c, config)
            && forall x: NodeId :: H.Other(core', x) ==> Informed(core', x, e)
  {
    hide LeaderRole.BroadcastAppend, LeaderRole.ReinitProgress, H.Other, Informed, Completed, LeaderRole.WithTarget,
         Log.Contiguous;
    CompletedIs(core, c, config);
    var core' := Completed(core, c, config);
    var state' := LeaderRole.ReinitProgress(core', state);
    BroadcastInforms(core', state', NO_EFFECTS);
    var e := LeaderRole.BroadcastAppend(core', state').1.WithPersist();
    assert e.Merge(NO_EFFECTS) == e;
  }

  lemma GrownOver(core: Core, c: LogIndex, core': Core, core'': Core)
    requires Proposals.CoreGrows(core, core'.(commitIndex := core.commitIndex)) && Proposals.CoreGrows(core', core'')
    ensures Proposals.CoreGrows(core, core'')
    ensures forall i: LogIndex :: core'.p.log.Get(i).Some? ==> core''.p.log.Get(i) == core'.p.log.Get(i)
  {
  }

  lemma HandsOverSame(core: Core, c: LogIndex, state: LeaderState, config: Configuration, e: Effects)
    requires HandsOver(core.(commitIndex := c), state, config, e)
    ensures HandsOver(core, state, config, e)
  {
    var advanced := core.(commitIndex := c);
    assert forall x :: CaughtUp(advanced, state, config, x) == CaughtUp(core, state, config, x);
  }

  /** Progress is added for members that have none, kept for the others, and the server's own is
      its whole log unless it writes to disk while it sends. */
  lemma ProgressFilled(core: Core, state: LeaderState, x: NodeId)
    ensures var (state', last) := (LeaderRole.ReinitProgress(core, state), core.p.log.LastIndex());
            var member := core.EffectiveConfig().IsMember(x);
            && state'.(nextIndex := state.nextIndex, matchIndex := state.matchIndex) == state
            && state'.NextOf(x) == (if x in state.nextIndex || !member then state.NextOf(x) else last + 1)
            && state'.MatchOf(x) == (if x == core.id && !core.opts.parallelDiskWrite then last else state.MatchOf(x))
  {
    hide Core.EffectiveConfig, Configuration.AllNodes, Log.LastIndex;
    QuorumIff(core.EffectiveConfig(), {});
  }

  // ----- Acknowledgements -----

  /** The acknowledgement of a member is noted, the commit index moves as far as it can, and
      what that commits takes effect. */
  lemma Accepted(node: Node, m: Message, recent: bool) returns (acked: LeaderState, c: LogIndex)
    requires node.role.Leader? && node.core.p.log.Contiguous()
    requires m.term == node.core.p.term && m.body.AppendResponse? && m.body.success
    requires node.core.EffectiveConfig().IsMember(m.from)
    ensures var (state, last) := (node.role.state, m.body.ackLastIndex);
            && acked.(matchIndex := state.matchIndex, nextIndex := state.nextIndex) == state
            && forall x: NodeId ::
                 && acked.MatchOf(x) == (if x == m.from then last else state.MatchOf(x))
                 && acked.NextOf(x) == (if x == m.from && !node.core.opts.pipelining then last + 1 else state.NextOf(x))
    ensures Reaches(node.core, acked, c)
    ensures var (node', e) := RaftNode.StepEvent(node, Receive(m, recent)); Commits(node.core, acked, c, node', e)
  {
    hide LeaderRole.MaybeCommit, Core.EffectiveConfig, Log.Contiguous, Reaches, Commits, Stops;
    var state, last := node.role.state, m.body.ackLastIndex;
    acked := state.(matchIndex := state.matchIndex[m.from := last]);
    if !node.core.opts.pipelining {
      acked := acked.(nextIndex := acked.nextIndex[m.from := last + 1]);
    }
    c := LoopCommits(node.core, acked);
    Settles(node, m, recent, LeaderRole.MaybeCommit(node.core, acked));
  }

  lemma Settles(node: Node, m: Message, recent: bool, r: LeaderRole.CommitResult)
    requires RaftNode.RoleStep(node, Receive(m, recent)) == LeaderRole.AfterCommit(r)
    ensures RaftNode.StepEvent(node, Receive(m, recent)) == (Left(r), r.effects)
  {
    hide RaftNode.RoleStep;
    assert r.effects.Merge(NO_EFFECTS) == r.effects;
  }

  /** So does the leader's own, when it writes to disk while it sends; an older one does nothing. */
  lemma Written(node: Node, index: LogIndex) returns (acked: LeaderState, c: LogIndex)
    requires node.role.Leader? && node.core.p.log.Contiguous()
    ensures index <= node.role.state.MatchOf(node.core.id) ==>
              RaftNode.StepEvent(node, DiskWriteComplete(index)) == (node, NO_EFFECTS)
    ensures index > node.role.state.MatchOf(node.core.id) ==>
              && acked.(matchIndex := node.role.state.matchIndex) == node.role.state
              && (forall x: NodeId ::
                    acked.MatchOf(x) == if x == node.core.id then index else node.role.state.MatchOf(x))
              && Reaches(node.core, acked, c)
              && var (node', e) := RaftNode.StepEvent(node, DiskWriteComplete(index));
                 Commits(node.core, acked, c, node', e)
  {
    hide LeaderRole.MaybeCommit, Core.EffectiveConfig, Log.Contiguous, Reaches, Commits, Stops;
    var state := node.role.state;
    acked := state.(matchIndex := state.matchIndex[node.core.id := index]);
    c := LoopCommits(node.core, acked);
    var r := LeaderRole.MaybeCommit(node.core, acked);
    assert r.effects.Merge(NO_EFFECTS) == r.effects;
  }

  // ----- Proposals -----

  /** Whatever a proposal commits at once, every other member of the configuration then in force
      is sent the log as it then is. */
  lemma ProposalInforms(node: Node, command: Bytes)
    requires node.core.p.log.Contiguous() && RaftNode.Propose(node, command).Proposed?
    ensures var r := RaftNode.Propose(node, command);
            forall x: NodeId :: H.Other(r.node.core, x) ==> Informed(r.node.core, x, r.effects)
  {
    hide LeaderRole.MaybeCommit, LeaderRole.BroadcastAppend, H.Other, Informed, Log.Contiguous;
    var core, state := node.core, node.role.state;
    Numbering.ProposalNumbered(node, command);
    var core' := LeaderRole.AppendCommand(core, command);
    var state' :=
      if core.opts.parallelDiskWrite then state
      else state.(matchIndex := state.matchIndex[core.id := core'.p.log.LastIndex()]);
    var committed := LeaderRole.MaybeCommit(core', state');
    BroadcastInforms(committed.core, committed.state, committed.effects);
  }

  /** A proposal counts the leader itself unless it writes to disk while it sends, commits what
      then can be, and goes on leading unless that takes it out of the voters. */
  lemma ProposalCommits(node: Node, command: Bytes) returns (counted: LeaderState, c: LogIndex)
    requires node.core.p.log.Contiguous() && RaftNode.Propose(node, command).Proposed?
    ensures var (r, state) := (RaftNode.Propose(node, command), node.role.state);
            var core := node.core.WithLog(node.core.p.log.Append(Entry(node.core.p.term, r.index, Command(command))));
            && counted.(matchIndex := state.matchIndex) == state
            && (forall x: NodeId ::
                  counted.MatchOf(x) ==
                  if x == core.id && !core.opts.parallelDiskWrite then r.index else state.MatchOf(x))
            && Reaches(core, counted, c)
            && ((forall i: LogIndex :: core.commitIndex < i <= c ==> !Stops(core, i)) ==>
                  && r.node.core == core.(commitIndex := c) && r.node.role.Leader?
                  && H.Broadcasts(r.node.core, counted, r.node.role.state, r.effects.(persist := false)))
            && (forall i: LogIndex ::
                  core.commitIndex < i <= c && Stops(core, i)
                      && (forall j: LogIndex :: core.commitIndex < j < i ==> !Stops(core, j))
                      && !core.p.log.Get(i).value.payload.config.IsVoter(core.id) ==>
                    r.node == Node(core.(commitIndex := c), Follower(None)))
  {
    hide LeaderRole.MaybeCommit, LeaderRole.BroadcastAppend, H.Broadcasts, Log.Contiguous, Reaches, HandsOver,
         Completes, Log.Get;
    var (core, state) := (node.core, node.role.state);
    var core' := LeaderRole.AppendCommand(core, command);
    Numbering.AppendNumbered(core.p.log, Entry(core.p.term, core.p.log.LastIndex() + 1, Command(command)));
    counted :=
      if core.opts.parallelDiskWrite then state
      else state.(matchIndex := state.matchIndex[core.id := core'.p.log.LastIndex()]);
    c := LoopCommits(core', counted);
    var committed := LeaderRole.MaybeCommit(core', counted);
    var (state', e) := LeaderRole.BroadcastAppend(committed.core, committed.state);
    if forall i: LogIndex :: core'.commitIndex < i <= c ==> !Stops(core', i) {
      H.BroadcastIs(committed.core, committed.state);
      H.BroadcastNotSaved(committed.core, committed.state, state', e);
      assert e.WithPersist().Merge(NO_EFFECTS).(persist := false) == e;
    }
  }
}
