/** The node as an object that handles events in place
    (consensus/basisdb-raft/src/raft/mod.rs and the roles it drives). Every method does to
    the fields what the corresponding function does to a value. */
module RaftObject {
  import opened Types
  import opened Membership
  import opened RaftLog
  import opened Event
  import opened RaftCore
  import FollowerRole
  import PreCandidateRole
  import CandidateRole
  import H = Heartbeat
  import LeaderRole
  import Proposals
  import RaftNode
  import Reconfigure

  class RaftMachine {
    const id: NodeId
    const opts: Options
    const bootstrap: Configuration
    var term: Term
    var votedFor: Option<NodeId>
    var log: Log
    var commitIndex: LogIndex
    var lastApplied: LogIndex
    var role: Role

    function Core(): Core
      reads this
    {
      RaftCore.Core(id, opts, Persistent(term, votedFor, log, bootstrap), commitIndex, lastApplied)
    }

    ghost function Value(): Node
      reads this
    {
      Node(Core(), role)
    }

    /** Restarts from what was on stable storage. */
    constructor (id: NodeId, opts: Options, p: Persistent)
      ensures Value() == RaftNode.Restore(id, opts, p)
    {
      this.id := id;
      this.opts := opts;
      bootstrap := p.bootstrap;
      term := p.term;
      votedFor := p.votedFor;
      log := p.log;
      commitIndex := 0;
      lastApplied := 0;
      role := Follower(None);
    }

    // ----- Shared state -----

    method MaybeUpdateTerm(newTerm: Term)
      modifies this`term, this`votedFor
      ensures Core() == old(Core()).MaybeUpdateTerm(newTerm)
    {
      if newTerm > term {
        term := newTerm;
        votedFor := None;
      }
    }

    method StartElection()
      modifies this`term, this`votedFor
      ensures Core() == old(Core()).StartElection()
    {
      votedFor := if Core().SelfIsVoter() then Some(id) else None;
      term := term + 1;
    }

    // ----- Follower -----

    /** The append loop: cut at a conflict, append past the end, remember whether anything
        was appended. */
    method MergeEntries(entries: seq<Entry>) returns (persist: bool)
      modifies this`log
      ensures log == FollowerRole.Merge(old(log), entries)
      ensures persist == FollowerRole.MergePersists(old(log), entries)
    {
      persist := false;
      for k := 0 to |entries|
        invariant log == FollowerRole.Merge(old(log), entries[..k])
        invariant persist == FollowerRole.MergePersists(old(log), entries[..k])
      {
        var entry := entries[k];
        assert entries[..k + 1][..k] == entries[..k];
        var existing := log.TermAt(entry.index);
        if existing != 0 && existing != entry.term {
          log := log.TruncateAfter(entry.index - 1);
        }
        if entry.index > log.LastIndex() {
          log := log.Append(entry);
          persist := true;
        }
      }
      assert entries[..|entries|] == entries;
    }

    method HandleAppendRequest(from: NodeId, req: MessageBody) returns (effects: Effects)
      requires req.AppendRequest?
      modifies this`log, this`commitIndex, this`role
      ensures StepResult(Core(), role, Stay, effects) == FollowerRole.HandleAppend(old(Core()), from, req)
    {
      role := Follower(Some(from));
      if !FollowerRole.PrevMatches(log, req) {
        return NO_EFFECTS.WithMessage(Core().Reply(from, AppendResponse(false, log.LastIndex())));
      }
      var persist := MergeEntries(req.entries);
      if req.leaderCommit > commitIndex {
        commitIndex := Min(req.leaderCommit, log.LastIndex());
      }
      effects := Effects(persist, [Core().Reply(from, AppendResponse(true, log.LastIndex()))], []);
    }

    method HandleVoteRequest(from: NodeId, req: MessageBody) returns (effects: Effects)
      requires req.VoteRequest?
      modifies this`votedFor
      ensures StepResult(Core(), role, Stay, effects) == FollowerRole.HandleVote(old(Core()), role, from, req)
      ensures effects.messages == [Core().Reply(from, VoteResponse(effects.persist))]
      ensures effects.persist ==>
                && old(votedFor) in {None, Some(from)} && votedFor == Some(from)
                && Core().EffectiveConfig().IsVoter(from) && Core().LogIsUpToDate(req.lastLogTerm, req.lastLogIndex)
      ensures old(votedFor).Some? || !effects.persist ==> votedFor == old(votedFor)
    {
      var granted := Core().EffectiveConfig().IsVoter(from) && Core().CanVoteFor(from)
                     && Core().LogIsUpToDate(req.lastLogTerm, req.lastLogIndex);
      if granted {
        votedFor := Some(from);
      }
      effects := Effects(granted, [Core().Reply(from, VoteResponse(granted))], []);
    }

    method HandleCurrent(m: Message) returns (transition: Transition, effects: Effects)
      modifies this
      ensures StepResult(Core(), role, transition, effects) == FollowerRole.HandleCurrent(old(Core()), old(role), m)
    {
      transition, effects := Stay, NO_EFFECTS;
      match m.body {
        case VoteRequest(_, _) => effects := HandleVoteRequest(m.from, m.body);
        case AppendRequest(_, _, _, _) => effects := HandleAppendRequest(m.from, m.body);
        case ReadIndexRequest(readId, readIndex) =>
          role := Follower(Some(m.from));
          effects := NO_EFFECTS.WithMessage(Core().Reply(m.from, ReadIndexResponse(readId, readIndex)));
        case TimeoutNow => transition := ToCandidate;
        case _ =>
      }
    }

    method FollowerMessage(m: Message, recent: bool) returns (transition: Transition, effects: Effects)
      requires role.Follower?
      modifies this
      ensures StepResult(Core(), role, transition, effects)
          == FollowerRole.HandleMessage(old(Core()), old(role), m, recent)
    {
      hide FollowerRole.HandleCurrent;
      if (m.body.VoteRequest? || m.body.PreVoteRequest?) && role.leader.Some? && recent {
        return Stay, DenyVote(Core(), m);
      }
      if m.body.PreVoteRequest? {
        return Stay, NO_EFFECTS.WithMessage(PreVoteReply(Core(), m));
      }
      var updated := m.term > term;
      if updated {
        MaybeUpdateTerm(m.term);
        if m.body.AppendRequest? || m.body.ReadIndexRequest? {
          role := Follower(Some(m.from));
        }
      }
      if m.term < term {
        return Stay, FollowerRole.RejectStaleRequest(Core(), m);
      }
      transition, effects := HandleCurrent(m);
      if updated {
        effects := effects.WithPersist();
      }
    }

    // ----- Pre-candidate and candidate -----

    method PreCandidateMessage(m: Message, recent: bool) returns (transition: Transition, effects: Effects)
      requires role.PreCandidate?
      modifies this
      ensures StepResult(Core(), role, transition, effects)
           == PreCandidateRole.HandleMessage(old(Core()), old(role), m, recent)
      ensures term != old(term) ==>
                && old(term) < term && (term == m.term || (m.body.PreVoteResponse? && term == m.body.responderTerm))
                && transition.ToFollower? && effects.persist
      ensures log == old(log) && (term == old(term) ==> votedFor == old(votedFor))
      ensures role.PreCandidate? && old(role.preVotes) <= role.preVotes <= old(role.preVotes) + {m.from}
      ensures transition.ToCandidate? ==> m.body.TimeoutNow? || PreCandidateRole.HasQuorum(Core(), role.preVotes)
    {
      hide PreCandidateRole.HasQuorum;
      transition, effects := Stay, NO_EFFECTS;
      if (m.body.VoteRequest? || m.body.PreVoteRequest?) && recent {
        effects := DenyVote(Core(), m);
      } else if m.term > term {
        MaybeUpdateTerm(m.term);
        transition := ToFollower(if m.body.AppendRequest? then Some(m.from) else None);
        effects := NO_EFFECTS.WithPersist();
      } else {
        match m.body {
          case PreVoteResponse(responderTerm, granted) =>
            if responderTerm > term {
              MaybeUpdateTerm(responderTerm);
              transition, effects := ToFollower(None), NO_EFFECTS.WithPersist();
            } else if responderTerm == term && granted {
              role := PreCandidate(role.preVotes + {m.from});
              if PreCandidateRole.HasQuorum(Core(), role.preVotes) {
                transition := ToCandidate;
              }
            }
          case AppendRequest(_, _, _, _) => transition := ToFollowerAfterContact(Some(m.from));
          case PreVoteRequest(_, _, _) => effects := NO_EFFECTS.WithMessage(PreVoteReply(Core(), m));
          case VoteRequest(_, _) => effects := NO_EFFECTS.WithMessage(Core().Reply(m.from, VoteResponse(false)));
          case TimeoutNow => transition := ToCandidate;
          case _ =>
        }
      }
    }

    method CandidateMessage(m: Message, recent: bool) returns (transition: Transition, effects: Effects)
      requires role.Candidate?
      modifies this
      ensures StepResult(Core(), role, transition, effects)
           == CandidateRole.HandleMessage(old(Core()), old(role), m, recent)
      ensures term != old(term) ==> old(term) < term == m.term && transition.ToFollower? && effects.persist
      ensures log == old(log) && (term == old(term) ==> votedFor == old(votedFor))
      ensures role.Candidate? && old(role.votes) <= role.votes <= old(role.votes) + {m.from}
      ensures role != old(role) ==> m.body == VoteResponse(true) && m.term == term
      ensures transition.ToLeader? ==> CandidateRole.HasQuorum(Core(), role.votes)
    {
      hide CandidateRole.HasQuorum;
      transition, effects := Stay, NO_EFFECTS;
      if (m.body.VoteRequest? || m.body.PreVoteRequest?) && recent {
        effects := DenyVote(Core(), m);
      } else if m.body.PreVoteRequest? {
        effects := NO_EFFECTS.WithMessage(PreVoteReply(Core(), m));
      } else if m.term > term {
        MaybeUpdateTerm(m.term);
        transition := ToFollower(if m.body.AppendRequest? then Some(m.from) else None);
        effects := NO_EFFECTS.WithPersist();
      } else if m.term < term {
        effects := RejectStale(Core(), m);
      } else {
        match m.body {
          case VoteResponse(granted) =>
            if granted {
              role := Candidate(role.votes + {m.from});
              if CandidateRole.HasQuorum(Core(), role.votes) {
                transition := ToLeader;
              }
            }
          case AppendRequest(_, _, _, _) => transition := ToFollowerAfterContact(Some(m.from));
          case VoteRequest(_, _) => effects := NO_EFFECTS.WithMessage(Core().Reply(m.from, VoteResponse(false)));
          case TimeoutNow => transition := ToCandidate;
          case _ =>
        }
      }
    }

    // ----- Leader: replication -----

    method SendAppendTo(to: NodeId) returns (effects: Effects)
      requires role.Leader?
      modifies this`role
      ensures role.Leader? && (role.state, effects) == LeaderRole.SendAppendTo(Core(), old(role.state), to)
      ensures forall m :: m in effects.messages ==>
                && m.to == to && m.term == term && m.body.AppendRequest? && m.body.leaderCommit == commitIndex
                && m.body.prevLogIndex + 1 == old(role.state.NextOf(to))
                && (log.Contiguous() ==> Carries(log, m.body.prevLogIndex, m.body.entries))
      ensures role.state.(nextIndex := old(role.state.nextIndex)) == old(role.state)
    {
      hide LeaderRole.Batch;
      BatchCarries(Core(), role.state.NextOf(to));
      var next, at := role.state.NextOf(to), log.snapshotIndex;
      if next <= at {
        return Effects(false, [], [SendSnapshot(to, at, log.snapshotTerm, Core().ConfigAt(at))]);
      }
      var batch := LeaderRole.Batch(Core(), next);
      var sentUpTo := if batch == [] then next else batch[|batch| - 1].index + 1;
      effects := NO_EFFECTS.WithMessage(LeaderRole.AppendFor(Core(), next, to));
      if opts.pipelining && sentUpTo > next {
        role := Leader(role.state.(nextIndex := role.state.nextIndex[to := sentUpTo]));
      }
    }

    method BroadcastAppend() returns (effects: Effects)
      requires role.Leader?
      modifies this`role
      ensures role.Leader? && (role.state, effects) == LeaderRole.BroadcastAppend(Core(), old(role.state))
    {
      hide LeaderRole.SendAppendTo;
      var peers := Without(Core().EffectiveConfig().AllNodes(), id);
      effects := NO_EFFECTS;
      for k := 0 to |peers|
        invariant role.Leader? && (role.state, effects) == LeaderRole.SendToFirst(Core(), old(role.state), peers, k)
      {
        var more := SendAppendTo(peers[k]);
        effects := effects.Merge(more);
      }
    }

    // ----- Leader: commit -----

    /** Searches from the end of the log for the first index a quorum is believed to hold. */
    method AdvanceCommitIndex()
      requires role.Leader?
      modifies this`commitIndex
      ensures Core() == LeaderRole.AdvanceCommit(old(Core()), role.state)
    {
      hide LeaderRole.Matched;
      var candidate: LogIndex := log.LastIndex();
      while candidate > commitIndex
        invariant Core() == old(Core())
        invariant LeaderRole.HighestCommittable(Core(), role.state, candidate)
               == LeaderRole.HighestCommittable(Core(), role.state, log.LastIndex())
      {
        if log.TermAt(candidate) == term
            && Core().EffectiveConfig().HasQuorum(LeaderRole.Matched(Core(), role.state, candidate)) {
          commitIndex := candidate;
          return;
        }
        candidate := candidate - 1;
      }
    }

    /** Progress for servers that joined; nothing known is overwritten. */
    method ReinitProgress()
      requires role.Leader?
      modifies this`role
      ensures role == Leader(LeaderRole.ReinitProgress(Core(), old(role.state)))
    {
      hide LeaderRole.Filled, Configuration.AllNodes, RaftCore.Core.ConfigAt, RaftCore.Core.EffectiveConfig,
          Log.LastIndex;
      var last, ids := log.LastIndex(), Core().EffectiveConfig().AllNodes();
      var next := InsertMissing(ids, role.state.nextIndex, last + 1);
      var matched := InsertMissing(ids, role.state.matchIndex, 0);
      if !opts.parallelDiskWrite {
        matched := matched[id := last];
      }
      role := Leader(role.state.(nextIndex := next, matchIndex := matched));
    }

    /** Keeps the best other voter seen so far and stops at one that is caught up; only a
        caught-up one is told to take over. */
    method TryAutoTransfer(config: Configuration) returns (effects: Effects)
      requires role.Leader?
      ensures effects == LeaderRole.AutoTransfer(Core(), role.state, config)
    {
      var last, voters := log.LastIndex(), config.Voters();
      var best: Option<(NodeId, LogIndex)> := None;
      var k := 0;
      while k < |voters|
        invariant k <= |voters|
        invariant best.Some? ==> best.value.1 < last
        invariant LeaderRole.TransferTarget(Core(), role.state, voters)
            == LeaderRole.TransferTarget(Core(), role.state, voters[k..])
      {
        var matched := role.state.MatchOf(voters[k]);
        assert voters[k..][1..] == voters[k + 1..];
        if voters[k] != id {
          if matched >= last {
            best := Some((voters[k], matched));
            break;
          }
          if best.None? || matched > best.value.1 {
            best := Some((voters[k], matched));
          }
        }
        k := k + 1;
      }
      effects := NO_EFFECTS;
      if best.Some? && best.value.1 >= last {
        effects := NO_EFFECTS.WithMessage(Core().Reply(best.value.0, TimeoutNow));
      }
    }

    /** Looks at the configurations just committed: completes the first joint one, or reports
        that this server is no longer a voter. */
    method ProcessCommittedConfigs(oldCommit: LogIndex) returns (kind: LeaderRole.ConfigCommit)
      requires role.Leader?
      modifies this`log, this`role
      ensures role.Leader?
      ensures kind == LeaderRole.ProcessCommitted(old(Core()), old(role.state), oldCommit + 1)
      ensures kind.Continue? ==> Core() == kind.core && role.state == kind.state
      ensures !kind.Continue? ==> Core() == old(Core()) && role == old(role)
    {
      hide LeaderRole.AutoTransfer, LeaderRole.BroadcastAppend, LeaderRole.ReinitProgress, LeaderRole.JointsPast;
      var index := oldCommit + 1;
      while index <= commitIndex
        invariant index > 0 && Core() == old(Core()) && role == old(role)
        invariant LeaderRole.ProcessCommitted(Core(), role.state, index)
               == LeaderRole.ProcessCommitted(Core(), role.state, oldCommit + 1)
      {
        var entry := log.Get(index);
        if entry.Some? && entry.value.payload.Config? {
          var config := entry.value.payload.config;
          if !config.IsVoter(id) {
            var transfer := TryAutoTransfer(config);
            return LeaderRole.StepDown(transfer);
          }
          if config.Joint? {
            var target := config.TransitionTarget().value;
            log := log.Append(Entry(term, log.LastIndex() + 1, Config(target)));
            ReinitProgress();
            var effects := BroadcastAppend();
            return LeaderRole.Continue(Core(), role.state, effects.WithPersist());
          }
        }
        index := index + 1;
      }
      kind := LeaderRole.Done;
    }

    /** Goes on while it makes progress; every further round has completed one more joint
        configuration. */
    method MaybeCommit() returns (effects: Effects, stepDown: bool)
      requires role.Leader?
      modifies this`log, this`role, this`commitIndex
      ensures role.Leader?
      ensures LeaderRole.CommitResult(Core(), role.state, effects, stepDown)
          == LeaderRole.MaybeCommit(old(Core()), old(role.state))
    {
      hide LeaderRole.HighestCommittable, LeaderRole.ProcessCommitted, LeaderRole.JointsPast;
      effects, stepDown := NO_EFFECTS, false;
      while true
        invariant role.Leader?
        invariant LeaderRole.MaybeCommit(Core(), role.state, effects)
            == LeaderRole.MaybeCommit(old(Core()), old(role.state))
        decreases LeaderRole.JointsPast(log, commitIndex)
      {
        var oldCommit := commitIndex;
        ghost var core := Core();
        AdvanceCommitIndex();
        if commitIndex == oldCommit {
          return;
        }
        var next := ProcessCommittedConfigs(oldCommit);
        match next
        case Continue(_, _, more) => effects := effects.Merge(more);
        case StepDown(more) => return effects.Merge(more), true;
        case Done => return;
      }
    }

    method Propose(command: Bytes) returns (r: RaftNode.ProposeOutcome)
      modifies this
      ensures r == RaftNode.Propose(old(Value()), command)
      ensures Value() == if r.Proposed? then r.node else old(Value())
      ensures r.Proposed? && old(log.Contiguous()) ==> Proposals.Placed(old(log), log, term, r.index, command)
    {
      hide LeaderRole.MaybeCommit, LeaderRole.BroadcastAppend, Proposals.Placed;
      ghost var before := Value();
      if !role.Leader? {
        return RaftNode.NotLeader(if role.Follower? then role.leader else None);
      }
      if commitIndex > log.LastIndex() {
        return RaftNode.Panicked;
      }
      if Core().ProposalLimitExceeded(command) {
        return RaftNode.Throttled;
      }
      var index := log.LastIndex() + 1;
      log := log.Append(Entry(term, index, Command(command)));
      if !opts.parallelDiskWrite {
        role := Leader(role.state.(matchIndex := role.state.matchIndex[id := log.LastIndex()]));
      }
      var committed, stepDown := MaybeCommit();
      var effects := BroadcastAppend();
      if stepDown {
        role := Follower(None);
      }
      r := RaftNode.Proposed(Node(Core(), role), index, effects.WithPersist().Merge(committed));
      if before.core.p.log.Contiguous() {
        Proposals.ProposalPlaced(before, command);
      }
    }

    /** The backward scan for an uncommitted configuration. */
    method HasPendingConfig() returns (pending: bool)
      ensures pending == Reconfigure.PendingConfig(Core())
    {
      var k: nat := |log.entries|;
      while k > 0
        invariant k <= |log.entries|
        invariant forall j: nat :: k <= j < |log.entries| ==> !Reconfigure.PendingAt(Core(), j)
      {
        k := k - 1;
        if log.entries[k].payload.Config? && log.entries[k].index > commitIndex {
          assert Reconfigure.PendingAt(Core(), k);
          return true;
        }
      }
      pending := false;
    }

    /** The first reason to refuse a change. */
    method ChangeRefusal(change: Change, mode: Mode) returns (e: Option<Reconfigure.ConfigError>)
      requires role.Leader?
      ensures e == Reconfigure.Refusal(Core(), role.state, change, mode)
    {
      hide Validate, Reconfigure.PendingConfig, RaftCore.Core.EffectiveConfig;
      var invalid := Validate(change, Core().EffectiveConfig(), mode);
      if invalid.Some? {
        return Some(Reconfigure.Invalid(invalid.value));
      }
      if change.AddVoter? {
        var have, need := role.state.MatchOf(change.id), log.LastIndex();
        if have < need {
          return Some(Reconfigure.LearnerBehind(change.id, have, need));
        }
      }
      var pending := HasPendingConfig();
      e := if pending then Some(Reconfigure.Invalid(ChangeInProgress)) else None;
    }

    method AppendConfig(config: Configuration) returns (effects: Effects, stepDown: bool)
      requires role.Leader?
      modifies this`log, this`role, this`commitIndex
      ensures role.Leader?
      ensures LeaderRole.CommitResult(Core(), role.state, effects, stepDown)
           == Reconfigure.Append(old(Core()), old(role.state), config)
    {
      hide LeaderRole.MaybeCommit, LeaderRole.BroadcastAppend, LeaderRole.ReinitProgress;
      log := log.Append(Entry(term, log.LastIndex() + 1, Config(config)));
      if !opts.parallelDiskWrite {
        role := Leader(role.state.(matchIndex := role.state.matchIndex[id := log.LastIndex()]));
      }
      ReinitProgress();
      var committed;
      committed, stepDown := MaybeCommit();
      effects := BroadcastAppend();
      effects := effects.WithPersist().Merge(committed);
    }

    method ProposeChange(change: Change, mode: Mode) returns (r: Reconfigure.ConfigOutcome)
      modifies this
      ensures r == Reconfigure.ProposeChange(old(Value()), change, mode)
      ensures Value() == if r.Reconfigured? then r.node else old(Value())
      ensures old(Reconfigure.Kept(Core())) ==> Reconfigure.Kept(Core())
    {
      hide Reconfigure.Refusal, Reconfigure.Append, Reconfigure.Kept, Membership.Apply, RaftCore.Core.EffectiveConfig;
      ghost var before := Value();
      if !role.Leader? {
        return Reconfigure.Refused(Reconfigure.NotLeading);
      }
      var refused := ChangeRefusal(change, mode);
      if refused.Some? {
        return Reconfigure.Refused(refused.value);
      }
      var index := log.LastIndex() + 1;
      var effects, stepDown := AppendConfig(Membership.Apply(change, Core().EffectiveConfig(), mode));
      if stepDown {
        role := Follower(None);
      }
      r := Reconfigure.Reconfigured(Node(Core(), role), index, effects);
      if Reconfigure.Kept(before.core) {
        Reconfigure.ChangeKept(before, change, mode);
      }
    }

    // ----- Leader: messages -----

    method HandleAppendResponse(from: NodeId, resp: MessageBody) returns (transition: Transition, effects: Effects)
      requires role.Leader? && resp.AppendResponse?
      modifies this
      ensures StepResult(Core(), role, transition, effects)
           == LeaderRole.HandleAppendResponse(old(Core()), old(role.state), from, resp)
    {
      hide LeaderRole.MaybeCommit, LeaderRole.SendAppendTo;
      transition, effects := Stay, NO_EFFECTS;
      if !Core().EffectiveConfig().IsMember(from) {
        return;
      }
      if resp.success {
        role := Leader(role.state.(matchIndex := role.state.matchIndex[from := resp.ackLastIndex]));
        if !opts.pipelining {
          role := Leader(role.state.(nextIndex := role.state.nextIndex[from := resp.ackLastIndex + 1]));
        }
        var stepDown;
        effects, stepDown := MaybeCommit();
        if stepDown {
          transition := ToFollower(None);
        }
      } else {
        var hinted := resp.ackLastIndex + 1;
        var next := if opts.pipelining then Max(hinted, role.state.MatchOf(from) + 1) else hinted;
        role := Leader(role.state.(nextIndex := role.state.nextIndex[from := next]));
        effects := SendAppendTo(from);
      }
    }

    method HandleReadIndexResponse(from: NodeId, resp: MessageBody)
      requires role.Leader? && resp.ReadIndexResponse?
      modifies this`role
      ensures role == Leader(LeaderRole.HandleReadResponse(old(role.state), from, resp))
      ensures role.state.confirmedRead >= old(role.state.confirmedRead)
      ensures role != old(role) ==>
                && old(role.state.pendingRead).Some?
                && var round := old(role.state.pendingRead.value);
                && round.configuration.IsVoter(from) && (round.id, round.readIndex) == (resp.ackId, resp.ackReadIndex)
                && (role.state.confirmedRead != old(role.state.confirmedRead) ==>
                      && role.state.confirmedRead == round.readIndex && role.state.pendingRead.None?
                      && round.configuration.HasQuorum(round.acks + {from}))
    {
      var state := role.state;
      if state.pendingRead.None? {
        return;
      }
      var pending := state.pendingRead.value;
      if !pending.configuration.IsVoter(from) || pending.id != resp.ackId || pending.readIndex != resp.ackReadIndex {
        return;
      }
      pending := pending.(acks := pending.acks + {from});
      role := Leader(state.(pendingRead := Some(pending)));
      if pending.configuration.HasQuorum(pending.acks) {
        role := Leader(state.(confirmedRead := Max(state.confirmedRead, pending.readIndex), pendingRead := None));
      }
    }

    method LeaderTick(expired: bool) returns (effects: Effects)
      requires role.Leader?
      modifies this`role
      ensures StepResult(Core(), role, Stay, effects) == LeaderRole.HandleTick(Core(), old(role.state), expired)
    {
      hide LeaderRole.BroadcastAppend, LeaderRole.ReadRequests;
      effects := NO_EFFECTS;
      if expired {
        var pending := role.state.pendingRead;
        effects := BroadcastAppend();
        effects := effects.Merge(if pending.Some? then LeaderRole.ReadRequests(Core(), pending.value) else NO_EFFECTS);
      }
    }

    method HandleDiskWrite(index: LogIndex) returns (transition: Transition, effects: Effects)
      requires role.Leader?
      modifies this
      ensures StepResult(Core(), role, transition, effects)
          == LeaderRole.HandleDiskWrite(old(Core()), old(role.state), index)
    {
      hide LeaderRole.MaybeCommit;
      transition, effects := Stay, NO_EFFECTS;
      if index > role.state.MatchOf(id) {
        role := Leader(role.state.(matchIndex := role.state.matchIndex[id := index]));
        var stepDown;
        effects, stepDown := MaybeCommit();
        if stepDown {
          transition := ToFollower(None);
        }
      }
    }

    method LeaderMessage(m: Message) returns (transition: Transition, effects: Effects)
      requires role.Leader?
      modifies this
      ensures StepResult(Core(), role, transition, effects) == LeaderRole.HandleMessage(old(Core()), old(role.state), m)
    {
      hide LeaderRole.HandleAppendResponse, LeaderRole.HandleReadResponse;
      transition, effects := Stay, NO_EFFECTS;
      if m.body.PreVoteRequest? {
        effects := NO_EFFECTS.WithMessage(Core().Reply(m.from, PreVoteResponse(term, false)));
      } else if m.term > term {
        MaybeUpdateTerm(m.term);
        transition := ToFollower(if m.body.AppendRequest? then Some(m.from) else None);
        effects := NO_EFFECTS.WithPersist();
      } else if m.term < term {
        effects := RejectStale(Core(), m);
      } else {
        match m.body {
          case AppendResponse(_, _) => transition, effects := HandleAppendResponse(m.from, m.body);
          case ReadIndexResponse(_, _) => HandleReadIndexResponse(m.from, m.body);
          case VoteRequest(_, _) => effects := NO_EFFECTS.WithMessage(Core().Reply(m.from, VoteResponse(false)));
          case _ =>
        }
      }
    }

    // ----- The node -----

    method RoleStep(event: Event) returns (transition: Transition, effects: Effects)
      modifies this
      ensures StepResult(Core(), role, transition, effects) == RaftNode.RoleStep(old(Value()), event)
    {
      hide FollowerRole.HandleMessage, PreCandidateRole.HandleMessage, CandidateRole.HandleMessage,
        LeaderRole.HandleMessage,
        LeaderRole.HandleTick, LeaderRole.HandleDiskWrite;
      transition, effects := Stay, NO_EFFECTS;
      match event {
        case Tick(expired) =>
          match role {
            case Follower(_) =>
              transition := if !expired then Stay else if opts.prevote then ToPreCandidate else ToCandidate;
            case PreCandidate(_) => transition := if expired then ToPreCandidate else Stay;
            case Candidate(_) => transition := if expired then ToCandidate else Stay;
            case Leader(_) => effects := LeaderTick(expired);
          }
        case DiskWriteComplete(index) =>
          if role.Leader? {
            transition, effects := HandleDiskWrite(index);
          }
        case Receive(m, recent) =>
          match role {
            case Follower(_) => transition, effects := FollowerMessage(m, recent);
            case PreCandidate(_) => transition, effects := PreCandidateMessage(m, recent);
            case Candidate(_) => transition, effects := CandidateMessage(m, recent);
            case Leader(_) => transition, effects := LeaderMessage(m);
          }
      }
    }

    method BecomeLeader() returns (effects: Effects)
      modifies this`role
      ensures (Value(), effects) == RaftNode.BecomeLeader(old(Core()))
    {
      hide LeaderRole.BroadcastAppend, LeaderRole.Everyone, Configuration.AllNodes, RaftCore.Core.ConfigAt,
          RaftCore.Core.EffectiveConfig, Log.LastIndex;
      var last, ids := log.LastIndex(), Core().EffectiveConfig().AllNodes();
      var next := InsertAll(ids, last + 1);
      var matched := InsertAll(ids, 0);
      if !opts.parallelDiskWrite {
        matched := matched[id := last];
      }
      role := Leader(LeaderState(next, matched, 1, None, 0));
      effects := BroadcastAppend();
    }

    method BecomeCandidate() returns (effects: Effects)
      modifies this`role, this`term, this`votedFor
      ensures (Value(), effects) == RaftNode.BecomeCandidate(old(Core()))
    {
      hide LeaderRole.New;
      StartElection();
      var config := Core().EffectiveConfig();
      role := Candidate(if Core().SelfIsVoter() then {id} else {});
      effects := NO_EFFECTS.WithPersist();
      if !(config.VoterCount() == 1 && config.IsVoter(id)) {
        var body := VoteRequest(log.LastIndex(), log.LastTerm());
        effects := Effects(true, CandidateRole.Requests(Core(), Without(config.Voters(), id), body), []);
      }
      if CandidateRole.HasQuorum(Core(), role.votes) {
        var more := BecomeLeader();
        effects := effects.Merge(more);
      }
    }

    method BecomePreCandidate() returns (effects: Effects)
      modifies this`role
      ensures (role, effects) == PreCandidateRole.New(old(Core())) && role.PreCandidate?
    {
      var config := Core().EffectiveConfig();
      role := PreCandidate(if Core().SelfIsVoter() then {id} else {});
      effects := NO_EFFECTS;
      if !(config.VoterCount() == 1 && config.IsVoter(id)) {
        var body := PreVoteRequest(term + 1, log.LastIndex(), log.LastTerm());
        effects := Effects(false, CandidateRole.Requests(Core(), Without(config.Voters(), id), body), []);
      }
    }

    method ApplyTransition(transition: Transition) returns (effects: Effects)
      modifies this`role, this`term, this`votedFor
      ensures (Value(), effects) == RaftNode.ApplyTransition(old(Core()), old(role), transition)
    {
      hide RaftNode.BecomeCandidate, RaftNode.BecomeLeader, PreCandidateRole.New, PreCandidateRole.HasQuorum;
      effects := NO_EFFECTS;
      match transition {
        case Stay =>
        case ToFollower(leader) => role := Follower(leader);
        case ToFollowerAfterContact(leader) => role := Follower(leader);
        case ToPreCandidate =>
          effects := BecomePreCandidate();
          if PreCandidateRole.HasQuorum(Core(), role.preVotes) {
            var more := BecomeCandidate();
            effects := effects.Merge(more);
          }
        case ToCandidate => effects := BecomeCandidate();
        case ToLeader => effects := BecomeLeader();
      }
    }

    method StepEvent(event: Event) returns (effects: Effects)
      modifies this
      ensures (Value(), effects) == RaftNode.StepEvent(old(Value()), event)
      ensures event == Tick(false) ==> Value() == old(Value()) && effects == NO_EFFECTS
      ensures event == Tick(true) && old(role.Leader? && log.Contiguous()) ==>
                Core() == old(Core()) && role.Leader? && H.Beats(old(Core()), old(role.state), role.state, effects)
    {
      hide RaftNode.RoleStep, RaftNode.ApplyTransition, H.Beats;
      ghost var before := Value();
      H.IdleTick(before);
      if before.role.Leader? && before.core.p.log.Contiguous() {
        H.Heartbeat(before);
      }
      var transition;
      transition, effects := RoleStep(event);
      var more := ApplyTransition(transition);
      StayIdle(Core(), role, transition);
      if !transition.Stay? {
        effects := effects.Merge(more);
      }
    }

    method RequestReadIndex() returns (r: LeaderRole.ReadOutcome)
      modifies this`role
      ensures r == RaftNode.RequestReadIndex(old(Value()))
      ensures Core() == old(Core()) && role == if r.ReadStarted? then Leader(r.state) else old(role)
    {
      hide LeaderRole.ReadRequests;
      if !role.Leader? {
        return LeaderRole.ReadRefused(LeaderRole.ReadNotLeader(if role.Follower? then role.leader else None));
      }
      var state := role.state;
      if state.pendingRead.Some? {
        return LeaderRole.ReadRefused(LeaderRole.ReadInProgress(state.pendingRead.value.readIndex));
      }
      var committed := CurrentTermCommitted();
      if !committed {
        return LeaderRole.ReadRefused(LeaderRole.CurrentTermNotCommitted);
      }
      var pending := PendingRead(state.nextReadId, commitIndex, Core().EffectiveConfig(), {id});
      state := state.(nextReadId := state.nextReadId + 1);
      var effects := NO_EFFECTS;
      if pending.configuration.HasQuorum(pending.acks) {
        state := state.(confirmedRead := Max(state.confirmedRead, pending.readIndex));
      } else {
        effects := LeaderRole.ReadRequests(Core(), pending);
        state := state.(pendingRead := Some(pending));
      }
      role := Leader(state);
      r := LeaderRole.ReadStarted(state, pending.readIndex, effects);
    }

    /** Scans the committed entries backwards, down to the first of an older term. */
    method CurrentTermCommitted() returns (found: bool)
      ensures found == LeaderRole.CommittedInTerm(Core(), commitIndex)
    {
      var index := commitIndex;
      while index > 0
        invariant LeaderRole.CommittedInTerm(Core(), index) == LeaderRole.CommittedInTerm(Core(), commitIndex)
      {
        if log.TermAt(index) == term {
          return true;
        }
        if log.TermAt(index) < term {
          return false;
        }
        index := index - 1;
      }
      found := false;
    }

    method Advance(appliedTo: LogIndex)
      modifies this`lastApplied
      ensures Core() == old(Core()).(lastApplied := appliedTo)
    {
      lastApplied := appliedTo;
    }
  }

  /** The entries are those of the log from just past `prev`. */
  predicate Carries(log: Log, prev: LogIndex, entries: seq<Entry>) {
    forall k :: 0 <= k < |entries| ==> log.Get(prev + 1 + k) == Some(entries[k])
  }

  lemma BatchCarries(core: Core, next: LogIndex)
    ensures core.p.log.Contiguous() && next > core.p.log.snapshotIndex ==>
              Carries(core.p.log, next - 1, LeaderRole.Batch(core, next))
  {
  }

  lemma StayIdle(core: Core, role: Role, transition: Transition)
    ensures transition.Stay? ==> RaftNode.ApplyTransition(core, role, transition) == (Node(core, role), NO_EFFECTS)
  {
  }

  method InsertAll(ids: seq<NodeId>, index: LogIndex) returns (m: map<NodeId, LogIndex>)
    ensures m == LeaderRole.Everyone(ids, index)
  {
    hide LeaderRole.Everyone;
    m := map[];
    EveryoneStep(ids, 0, index);
    for k := 0 to |ids|
      invariant m == LeaderRole.Everyone(ids[..k], index)
    {
      EveryoneStep(ids, k, index);
      m := m[ids[k] := index];
    }
    assert ids[..|ids|] == ids;
  }

  method InsertMissing(ids: seq<NodeId>, known: map<NodeId, LogIndex>, default: LogIndex)
      returns (m: map<NodeId, LogIndex>)
    ensures m == LeaderRole.Filled(ids, known, default)
  {
    hide LeaderRole.Filled;
    m := known;
    FilledNone(ids, known, default);
    for k := 0 to |ids|
      invariant m == LeaderRole.Filled(ids[..k], known, default)
    {
      FilledStep(ids, k, known, default);
      if ids[k] !in m {
        m := m[ids[k] := default];
      }
    }
    assert ids[..|ids|] == ids;
  }

  lemma EveryoneStep(ids: seq<NodeId>, k: nat, index: LogIndex)
    requires k <= |ids|
    ensures LeaderRole.Everyone(ids[..0], index) == map[]
    ensures k < |ids| ==>
              LeaderRole.Everyone(ids[..k + 1], index) == LeaderRole.Everyone(ids[..k], index)[ids[k] := index]
  {
    if k < |ids| {
      assert ids[..k + 1] == ids[..k] + [ids[k]];
    }
  }

  lemma FilledNone(ids: seq<NodeId>, m: map<NodeId, LogIndex>, default: LogIndex)
    ensures LeaderRole.Filled(ids[..0], m, default) == m
  {
    EveryoneStep(ids, 0, default);
  }

  lemma FilledStep(ids: seq<NodeId>, k: nat, m: map<NodeId, LogIndex>, default: LogIndex)
    requires k < |ids|
    ensures var before := LeaderRole.Filled(ids[..k], m, default);
            LeaderRole.Filled(ids[..k + 1], m, default) == if ids[k] in before then before
                else before[ids[k] := default]
  {
    EveryoneStep(ids, k, default);
  }
}
