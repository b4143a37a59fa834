/** The leader's events and the client requests, as protocol steps. */
module RefineLeader {
  import opened Types
  import opened Membership
  import opened RaftLog
  import opened Event
  import opened RaftCore
  import LeaderRole
  import opened RaftNode
  import opened Merging
  import opened CommitLoop
  import opened Refinement
  import opened RefineRoles
  import P = Protocol

  // ----- Committing without configuration entries -----

  lemma {:induction false} NothingToProcess(core: Core, state: LeaderState, index: LogIndex)
    requires index > 0
    requires forall k :: 0 <= k < |core.p.log.entries| ==> core.p.log.entries[k].payload.Command?
    ensures LeaderRole.ProcessCommitted(core, state, index) == LeaderRole.Done
    decreases core.commitIndex + 1 - index
  {
    if index <= core.commitIndex {
      NothingToProcess(core, state, index + 1);
    }
  }

  lemma MaybeCommitPlain(voters: set<NodeId>, core: Core, state: LeaderState)
    requires CoreOk(voters, core)
    ensures LeaderRole.MaybeCommit(core, state, NO_EFFECTS)
         == LeaderRole.CommitResult(LeaderRole.AdvanceCommit(core, state), state, NO_EFFECTS, false)
  {
    hide LeaderRole.HighestCommittable, LeaderRole.ProcessCommitted, LeaderRole.JointsPast;
    NothingToProcess(LeaderRole.AdvanceCommit(core, state), state, core.commitIndex + 1);
  }

  lemma HoldersAreMatched(voters: set<NodeId>, core: Core, state: LeaderState, index: LogIndex)
    requires CoreOk(voters, core) && index > 0
    requires core.EffectiveConfig().HasQuorum(LeaderRole.Matched(core, state, index))
    ensures P.Majority(voters, P.HoldersOf(state.matchIndex, index))
  {
    FixedConfig(voters, core);
    var matched := LeaderRole.Matched(core, state, index);
    assert voters * matched == voters * P.HoldersOf(state.matchIndex, index);
  }

  lemma CommitRefined(lead: Option<P.LeaderLogs>, voters: set<NodeId>, net: set<Message>, core: Core,
                      state: LeaderState)
    requires CoreOk(voters, core) && RoleOk(voters, Leader(state)) && core.p.term > 0
    ensures LeaderRole.AdvanceCommit(core, state).p == core.p
    ensures Refined(lead, voters, net, core, Leader(state), LeaderRole.AdvanceCommit(core, state), Leader(state),
                    NO_EFFECTS)
  {
    hide LeaderRole.HighestCommittable, CoreOk, Plain, LeaderRole.Matched, Refined;
    var last := core.p.log.LastIndex();
    HighestIs(core, state, last);
    var c := LeaderRole.HighestCommittable(core, state, last);
    if c == core.commitIndex {
      assert LeaderRole.AdvanceCommit(core, state) == core;
      QuietRefined(lead, voters, net, core, Leader(state), Leader(state), NO_EFFECTS);
    } else {
      HoldersAreMatched(voters, core, state, c);
      CommitToRefined(lead, voters, net, core, state, c);
    }
  }

  lemma CommitToRefined(lead: Option<P.LeaderLogs>, voters: set<NodeId>, net: set<Message>, core: Core,
                        state: LeaderState, c: LogIndex)
    requires CoreOk(voters, core) && RoleOk(voters, Leader(state)) && core.p.term > 0
    requires core.commitIndex < c <= core.p.log.LastIndex() && core.p.log.TermAt(c) == core.p.term
    requires P.Majority(voters, P.HoldersOf(state.matchIndex, c))
    ensures Refined(lead, voters, net, core, Leader(state), core.(commitIndex := c), Leader(state), NO_EFFECTS)
  {
    PlainQueries(core.p.log);
    hide P.Majority, P.HoldersOf, Reaches, CoreOk, Plain;
    Via(lead, voters, net, core.id, View(core, Leader(state)), P.Commit(c),
        View(core.(commitIndex := c), Leader(state)), {});
    assert net + {} == net + Msgs(NO_EFFECTS);
  }

  // ----- Acknowledgements -----

  lemma AckRefined(lead: Option<P.LeaderLogs>, voters: set<NodeId>, net: set<Message>, core: Core, state: LeaderState,
                   m: Message)
    requires RoleOk(voters, Leader(state)) && m in net && m.to == core.id && m.term == core.p.term
    requires m.body.AppendResponse? && m.body.success
    ensures var acked := state.(matchIndex := state.matchIndex[m.from := m.body.ackLastIndex]);
            && Refined(lead, voters, net, core, Leader(state), core, Leader(acked), NO_EFFECTS)
            && Refined(lead, voters, net, core, Leader(state), core,
                 Leader(acked.(nextIndex := acked.nextIndex[m.from := m.body.ackLastIndex + 1])), NO_EFFECTS)
  {
    var acked := state.(matchIndex := state.matchIndex[m.from := m.body.ackLastIndex]);
    Via(lead, voters, net, core.id, View(core, Leader(state)), P.Ack(m), View(core, Leader(acked)), {});
    assert net + {} == net + Msgs(NO_EFFECTS);
  }

  lemma AppendResponseRefined(lead: Option<P.LeaderLogs>, voters: set<NodeId>, net: set<Message>, core: Core,
                              state: LeaderState, m: Message)
    requires CoreOk(voters, core) && RoleOk(voters, Leader(state)) && core.p.term > 0
    requires m in net && m.to == core.id && m.from in voters && m.term == core.p.term && m.body.AppendResponse?
    ensures var r := LeaderRole.HandleAppendResponse(core, state, m.from, m.body);
            && r.transition.Stay?
            && Refined(lead, voters, net, core, Leader(state), r.core, r.role, r.effects)
  {
    hide Refined, LeaderRole.MaybeCommit, LeaderRole.AdvanceCommit, LeaderRole.SendAppendTo, CoreOk, Msgs,
        LatestConfig, RoleOk;
    FixedConfig(voters, core);
    if m.body.success {
      AckRefined(lead, voters, net, core, state, m);
      var acked := state.(matchIndex := state.matchIndex[m.from := m.body.ackLastIndex]);
      var state' := if core.opts.pipelining then acked
                    else acked.(nextIndex := acked.nextIndex[m.from := m.body.ackLastIndex + 1]);
      MaybeCommitPlain(voters, core, state');
      AckThenCommit(lead, voters, net, core, state, state');
    } else {
      var hinted := m.body.ackLastIndex + 1;
      var next := if core.opts.pipelining then Max(hinted, state.MatchOf(m.from) + 1) else hinted;
      RetryOk(voters, state, m.from, next);
      RetryRefined(lead, voters, net, core, state, state.(nextIndex := state.nextIndex[m.from := next]), m.from);
    }
  }

  lemma AckThenCommit(lead: Option<P.LeaderLogs>, voters: set<NodeId>, net: set<Message>, core: Core,
                      state: LeaderState, state': LeaderState)
    requires CoreOk(voters, core) && core.p.term > 0
    requires Refined(lead, voters, net, core, Leader(state), core, Leader(state'), NO_EFFECTS)
    ensures Refined(lead, voters, net, core, Leader(state), LeaderRole.AdvanceCommit(core, state'), Leader(state'),
                    NO_EFFECTS)
  {
    hide Refined, CoreOk, LeaderRole.AdvanceCommit, Msgs, RoleOk;
    RefinedRole(lead, voters, net, core, Leader(state), core, Leader(state'), NO_EFFECTS);
    NothingSent(net);
    CommitRefined(lead, voters, net, core, state');
    RefinedThen(lead, voters, net, core, Leader(state), core, Leader(state'), NO_EFFECTS,
      LeaderRole.AdvanceCommit(core, state'), Leader(state'), NO_EFFECTS);
    assert NO_EFFECTS.Merge(NO_EFFECTS) == NO_EFFECTS;
  }

  lemma RetryOk(voters: set<NodeId>, state: LeaderState, to: NodeId, next: LogIndex)
    requires RoleOk(voters, Leader(state)) && next >= 1
    ensures RoleOk(voters, Leader(state.(nextIndex := state.nextIndex[to := next])))
  {
  }

  lemma NothingSent(net: set<Message>)
    ensures net + Msgs(NO_EFFECTS) == net
  {
  }

  lemma RetryRefined(lead: Option<P.LeaderLogs>, voters: set<NodeId>, net: set<Message>, core: Core,
                     state: LeaderState, state': LeaderState, to: NodeId)
    requires CoreOk(voters, core) && RoleOk(voters, Leader(state')) && state'.(nextIndex := state.nextIndex) == state
    ensures var (state'', effects) := LeaderRole.SendAppendTo(core, state', to);
            Refined(lead, voters, net, core, Leader(state), core, Leader(state''), effects)
  {
    hide P.Replicates, CoreOk, LeaderRole.SendAppendTo;
    SendRefined(voters, core, state', to, Leader(state));
    var (state'', effects) := LeaderRole.SendAppendTo(core, state', to);
    Via(lead, voters, net, core.id, View(core, Leader(state)), P.Send(Msgs(effects)), View(core, Leader(state'')),
        Msgs(effects));
  }

  // ----- Read rounds -----

  lemma ReadResponseRefined(lead: Option<P.LeaderLogs>, voters: set<NodeId>, net: set<Message>, core: Core,
                            state: LeaderState, m: Message)
    requires RoleOk(voters, Leader(state)) && m in net && m.to == core.id && m.term == core.p.term
    requires m.body.ReadIndexResponse?
    ensures Refined(lead, voters, net, core, Leader(state), core,
                    Leader(LeaderRole.HandleReadResponse(state, m.from, m.body)), NO_EFFECTS)
  {
    var state' := LeaderRole.HandleReadResponse(state, m.from, m.body);
    assert net + {} == net + Msgs(NO_EFFECTS) == net;
    if state' == state {
      QuietRefined(lead, voters, net, core, Leader(state), Leader(state), NO_EFFECTS);
    } else {
      var pending := state.pendingRead.value;
      var pending' := pending.(acks := pending.acks + {m.from});
      var counted := state.(pendingRead := Some(pending'));
      Via(lead, voters, net, core.id, View(core, Leader(state)), P.AckRead(m), View(core, Leader(counted)), {});
      if state' != counted {
        ConfirmReached(lead, voters, net, core, counted, state');
        hide Reaches;
        ReachesThen(lead, voters, net, core.id, View(core, Leader(state)), View(core, Leader(counted)), net,
          View(core, Leader(state')), net);
      }
    }
  }

  lemma ConfirmReached(lead: Option<P.LeaderLogs>, voters: set<NodeId>, net: set<Message>, core: Core,
                       state: LeaderState, state': LeaderState)
    requires state.pendingRead.Some? && P.Majority(voters, state.pendingRead.value.acks)
    requires state' == state.(pendingRead := None,
               confirmedRead := Max(state.confirmedRead, state.pendingRead.value.readIndex))
    ensures Reaches(lead, voters, net, core.id, View(core, Leader(state)), View(core, Leader(state')), net)
  {
    Via(lead, voters, net, core.id, View(core, Leader(state)), P.Confirm, View(core, Leader(state')), {});
    assert net + {} == net;
  }

  /** The scan for a committed entry of the current term finds one in the log. */
  lemma {:induction false} CommittedInTermMeans(core: Core, index: LogIndex)
    requires Plain(core.p.log) && core.p.term > 0 && LeaderRole.CommittedInTerm(core, index)
    ensures P.LogHasTerm(core.p.log.entries, index, core.p.term)
  {
    PlainQueries(core.p.log);
    if core.p.log.TermAt(index) == core.p.term {
      assert core.p.log.entries[index - 1].term == core.p.term;
    } else {
      CommittedInTermMeans(core, index - 1);
      var k :| 0 <= k < index - 1 && k < |core.p.log.entries| && core.p.log.entries[k].term == core.p.term;
      assert k < index;
    }
  }

  lemma AskRefined(lead: Option<P.LeaderLogs>, voters: set<NodeId>, net: set<Message>, core: Core, state: LeaderState)
    requires RoleOk(voters, Leader(state)) && state.pendingRead.Some?
    ensures Refined(lead, voters, net, core, Leader(state), core, Leader(state),
                    LeaderRole.ReadRequests(core, state.pendingRead.value))
  {
    var effects := LeaderRole.ReadRequests(core, state.pendingRead.value);
    Via(lead, voters, net, core.id, View(core, Leader(state)), P.Ask(Msgs(effects)), View(core, Leader(state)),
        Msgs(effects));
  }

  lemma StartRoundReached(lead: Option<P.LeaderLogs>, voters: set<NodeId>, net: set<Message>, core: Core,
                          state: LeaderState, pending: LeaderState)
    requires Plain(core.p.log) && core.p.term > 0 && state.pendingRead.None?
        && LeaderRole.CommittedInTerm(core, core.commitIndex)
    requires pending == state.(nextReadId := state.nextReadId + 1,
               pendingRead := Some(PendingRead(state.nextReadId, core.commitIndex, core.EffectiveConfig(), {core.id})))
    ensures Reaches(lead, voters, net, core.id, View(core, Leader(state)), View(core, Leader(pending)), net)
  {
    hide Reaches;
    CommittedInTermMeans(core, core.commitIndex);
    Via(lead, voters, net, core.id, View(core, Leader(state)), P.StartRound, View(core, Leader(pending)), {});
    assert net + {} == net;
  }

  lemma RequestReadRefined(lead: Option<P.LeaderLogs>, voters: set<NodeId>, net: set<Message>, core: Core,
                           state: LeaderState)
    requires CoreOk(voters, core) && RoleOk(voters, Leader(state)) && core.p.term > 0
    requires LeaderRole.RequestReadIndex(core, state).ReadStarted?
    ensures var r := LeaderRole.RequestReadIndex(core, state);
            Refined(lead, voters, net, core, Leader(state), core, Leader(r.state), r.effects)
  {
    FixedConfig(voters, core);
    var r := LeaderRole.RequestReadIndex(core, state);
    var round := PendingRead(state.nextReadId, core.commitIndex, core.EffectiveConfig(), {core.id});
    var pending := state.(nextReadId := state.nextReadId + 1, pendingRead := Some(round));
    StartRoundReached(lead, voters, net, core, state, pending);
    hide Reaches, LeaderRole.ReadRequests, LeaderRole.CommittedInTerm;
    assert net + Msgs(NO_EFFECTS) == net;
    if round.configuration.HasQuorum(round.acks) {
      ConfirmReached(lead, voters, net, core, pending, r.state);
      ReachesThen(lead, voters, net, core.id, View(core, Leader(state)), View(core, Leader(pending)), net,
        View(core, Leader(r.state)), net);
    } else {
      AskRefined(lead, voters, net, core, pending);
      ReachesThen(lead, voters, net, core.id, View(core, Leader(state)), View(core, Leader(pending)), net,
        View(core, Leader(r.state)), net + Msgs(r.effects));
    }
  }

  // ----- Ticks, messages, proposals -----

  lemma LeaderTickRefined(lead: Option<P.LeaderLogs>, voters: set<NodeId>, net: set<Message>, core: Core,
                          state: LeaderState, expired: bool)
    requires CoreOk(voters, core) && RoleOk(voters, Leader(state))
    ensures var r := LeaderRole.HandleTick(core, state, expired);
            Refined(lead, voters, net, core, Leader(state), r.core, r.role, r.effects)
  {
    hide Refined, LeaderRole.BroadcastAppend, LeaderRole.ReadRequests, CoreOk;
    if !expired {
      QuietRefined(lead, voters, net, core, Leader(state), Leader(state), NO_EFFECTS);
    } else {
      BroadcastRefined(lead, voters, net, core, state);
      var (state', effects) := LeaderRole.BroadcastAppend(core, state);
      PendingUntouched(core, state);
      assert RoleOk(voters, Leader(state')) by {
        RefinedRole(lead, voters, net, core, Leader(state), core, Leader(state'), effects);
      }
      if state.pendingRead.Some? {
        AskRefined(lead, voters, net + Msgs(effects), core, state');
      } else {
        QuietRefined(lead, voters, net + Msgs(effects), core, Leader(state'), Leader(state'), NO_EFFECTS);
      }
      var asks := if state.pendingRead.Some? then LeaderRole.ReadRequests(core, state.pendingRead.value)
          else NO_EFFECTS;
      RefinedThen(lead, voters, net, core, Leader(state), core, Leader(state'), effects, core, Leader(state'), asks);
    }
  }

  lemma RefinedRole(lead: Option<P.LeaderLogs>, voters: set<NodeId>, net: set<Message>, c0: Core, r0: Role, c1: Core,
                    r1: Role, e: Effects)
    requires Refined(lead, voters, net, c0, r0, c1, r1, e)
    ensures RoleOk(voters, r1) && SameShape(c0, c1)
  {
    hide Reaches;
  }

  lemma PendingUntouched(core: Core, state: LeaderState)
    ensures LeaderRole.BroadcastAppend(core, state).0.pendingRead == state.pendingRead
  {
    var peers := Without(core.EffectiveConfig().AllNodes(), core.id);
    SendKeepsPending(core, state, peers, |peers|);
  }

  lemma {:induction false} SendKeepsPending(core: Core, state: LeaderState, peers: seq<NodeId>, k: nat)
    requires k <= |peers|
    ensures LeaderRole.SendToFirst(core, state, peers, k).0.pendingRead == state.pendingRead
  {
    hide LeaderRole.Batch, LeaderRole.AppendFor;
    if k > 0 {
      SendKeepsPending(core, state, peers, k - 1);
    }
  }

  /** A leader that hears of a newer term steps down at once, as a candidate does. */
  lemma LeaderMessageRefined(lead: Option<P.LeaderLogs>, voters: set<NodeId>, net: set<Message>, core: Core,
                             state: LeaderState, m: Message)
    requires CoreOk(voters, core) && RoleOk(voters, Leader(state)) && core.p.term > 0
    requires m in net && m.to == core.id && m.from in voters
    ensures var r := LeaderRole.HandleMessage(core, state, m);
            && (r.transition.Stay? ==> Refined(lead, voters, net, core, Leader(state), r.core, r.role, r.effects))
            && (!r.transition.Stay? ==>
                  && r.transition.ToFollower?
                  && Refined(lead, voters, net, core, Leader(state), r.core, Follower(r.transition.leader), r.effects))
  {
    hide Refined, LeaderRole.HandleAppendResponse, LeaderRole.HandleReadResponse, CoreOk;
    var r := LeaderRole.HandleMessage(core, state, m);
    if m.body.PreVoteRequest? || m.term < core.p.term {
      QuietRefined(lead, voters, net, core, Leader(state), Leader(state), r.effects);
    } else if m.term > core.p.term {
      RaiseRefined(lead, voters, net, core, Leader(state), m.term, Follower(r.transition.leader));
      RefinedFlag(lead, voters, net, core, Leader(state), r.core, Follower(r.transition.leader), NO_EFFECTS, r.effects);
    } else if m.body.AppendResponse? {
      AppendResponseRefined(lead, voters, net, core, state, m);
    } else if m.body.ReadIndexResponse? {
      ReadResponseRefined(lead, voters, net, core, state, m);
    } else {
      QuietRefined(lead, voters, net, core, Leader(state), Leader(state), r.effects);
    }
  }

  lemma ProposeStepRefined(lead: Option<P.LeaderLogs>, voters: set<NodeId>, net: set<Message>, core: Core,
                           state: LeaderState, command: Bytes)
    requires CoreOk(voters, core) && RoleOk(voters, Leader(state)) && core.p.term > 0
    ensures var core' := LeaderRole.AppendCommand(core, command);
            var state' := state.(matchIndex := state.matchIndex[core.id := core'.p.log.LastIndex()]);
            && CoreOk(voters, core')
            && Refined(lead, voters, net, core, Leader(state), core', Leader(state'), NO_EFFECTS)
  {
    PlainQueries(core.p.log);
    var core' := LeaderRole.AppendCommand(core, command);
    assert core'.p.log.LastIndex() == |core.p.log.entries| + 1;
    var state' := state.(matchIndex := state.matchIndex[core.id := core'.p.log.LastIndex()]);
    Via(lead, voters, net, core.id, View(core, Leader(state)), P.Propose(command), View(core', Leader(state')), {});
    assert net + {} == net + Msgs(NO_EFFECTS);
  }

  lemma ProposeUnfolds(voters: set<NodeId>, core: Core, state: LeaderState, command: Bytes)
    requires CoreOk(voters, core) && RoleOk(voters, Leader(state)) && core.p.term > 0
    ensures var core' := LeaderRole.AppendCommand(core, command);
            var state' := state.(matchIndex := state.matchIndex[core.id := core'.p.log.LastIndex()]);
            var committed := LeaderRole.AdvanceCommit(core', state');
            var (state'', effects) := LeaderRole.BroadcastAppend(committed, state');
            var r := LeaderRole.Propose(core, state, command);
            && !r.stepDown && r.core == committed && r.state == state''
            && r.effects.messages == effects.messages && r.effects.sendSnapshots == effects.sendSnapshots
  {
    var parallel := core.opts.parallelDiskWrite;
    assert !parallel;
    ProposeStepRefined(None, voters, {}, core, state, command);
    hide Refined, LeaderRole.MaybeCommit, LeaderRole.AdvanceCommit, LeaderRole.BroadcastAppend, CoreOk,
        LeaderRole.AppendCommand;
    var core' := LeaderRole.AppendCommand(core, command);
    MaybeCommitPlain(voters, core', state.(matchIndex := state.matchIndex[core.id := core'.p.log.LastIndex()]));
  }

  lemma ProposeRefined(lead: Option<P.LeaderLogs>, voters: set<NodeId>, net: set<Message>, core: Core,
                       state: LeaderState, command: Bytes)
    requires CoreOk(voters, core) && RoleOk(voters, Leader(state)) && core.p.term > 0
    ensures var r := LeaderRole.Propose(core, state, command);
            && !r.stepDown
            && Refined(lead, voters, net, core, Leader(state), r.core, Leader(r.state), r.effects)
  {
    ProposeUnfolds(voters, core, state, command);
    hide LeaderRole.Propose;
    ProposeStepRefined(lead, voters, net, core, state, command);
    hide Refined, LeaderRole.MaybeCommit, LeaderRole.AdvanceCommit, LeaderRole.BroadcastAppend, CoreOk,
        LeaderRole.AppendCommand;
    var core' := LeaderRole.AppendCommand(core, command);
    var state' := state.(matchIndex := state.matchIndex[core.id := core'.p.log.LastIndex()]);
    var committed := LeaderRole.AdvanceCommit(core', state');
    assert net + Msgs(NO_EFFECTS) == net;
    assert core'.p.term > 0 by { AppendKeepsTerm(core, command); }
    CommitRefined(lead, voters, net, core', state');
    CommitKeepsCore(voters, core', state');
    BroadcastRefined(lead, voters, net, committed, state');
    var (state'', effects) := LeaderRole.BroadcastAppend(committed, state');
    RefinedThen(lead, voters, net, core', Leader(state'), committed, Leader(state'), NO_EFFECTS, committed,
                Leader(state''), effects);
    RefinedThen(lead, voters, net, core, Leader(state), core', Leader(state'), NO_EFFECTS,
      committed, Leader(state''), NO_EFFECTS.Merge(effects));
    var r := LeaderRole.Propose(core, state, command);
    RefinedFlag(lead, voters, net, core, Leader(state), committed, Leader(state''),
                NO_EFFECTS.Merge(NO_EFFECTS.Merge(effects)), r.effects);
  }

  lemma AppendKeepsTerm(core: Core, command: Bytes)
    ensures LeaderRole.AppendCommand(core, command).p.term == core.p.term
  {
  }

  lemma CommitKeepsCore(voters: set<NodeId>, core: Core, state: LeaderState)
    requires CoreOk(voters, core)
    ensures CoreOk(voters, LeaderRole.AdvanceCommit(core, state))
  {
    hide LeaderRole.HighestCommittable;
  }
}
