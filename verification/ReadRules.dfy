/** When a read round starts, whom it asks and when it is confirmed
    (consensus/basisdb-raft/src/raft/leader.rs). */
module ReadRules {
  import opened Types
  import opened Membership
  import opened Event
  import opened RaftCore
  import H = Heartbeat
  import LeaderRole
  import opened RaftNode

  /** Some entry up to `n` is of the current term, and none after it is older. */
  ghost predicate OwnTermUpTo(core: Core, n: LogIndex) {
    exists i: LogIndex :: 0 < i <= n && core.p.log.TermAt(i) == core.p.term && NewerBetween(core, i, n)
  }

  ghost predicate NewerBetween(core: Core, i: LogIndex, n: LogIndex) {
    forall j: LogIndex :: i < j <= n ==> core.p.log.TermAt(j) > core.p.term
  }

  lemma {:induction false} ScanIff(core: Core, n: LogIndex)
    ensures LeaderRole.CommittedInTerm(core, n) <==> OwnTermUpTo(core, n)
  {
    if n > 0 {
      ScanIff(core, n - 1);
      assert NewerBetween(core, n, n);
      if core.p.log.TermAt(n) != core.p.term && LeaderRole.CommittedInTerm(core, n) {
        var i: LogIndex :| 0 < i <= n - 1 && core.p.log.TermAt(i) == core.p.term && NewerBetween(core, i, n - 1);
        assert NewerBetween(core, i, n);
      }
      if core.p.log.TermAt(n) != core.p.term && OwnTermUpTo(core, n) {
        var i: LogIndex :| 0 < i <= n && core.p.log.TermAt(i) == core.p.term && NewerBetween(core, i, n);
        assert NewerBetween(core, i, n - 1);
      }
    }
  }

  /** A round starts exactly at a leader that has none in progress and whose commit index covers
      an entry of its term. It is for that index and has the next number. One vote that is a
      majority confirms it at once; otherwise every other voter of the configuration in force is
      asked, and nobody else. */
  lemma ReadIff(node: Node)
    ensures var r := RequestReadIndex(node);
            && (!node.role.Leader? ==>
                  r == LeaderRole.ReadRefused(
                         LeaderRole.ReadNotLeader(if node.role.Follower? then node.role.leader else None)))
            && (node.role.Leader? && node.role.state.pendingRead.Some? ==>
                  r == LeaderRole.ReadRefused(LeaderRole.ReadInProgress(node.role.state.pendingRead.value.readIndex)))
            && (node.role.Leader? && node.role.state.pendingRead.None? ==>
                  if OwnTermUpTo(node.core, node.core.commitIndex)
                    then r.ReadStarted? && Begins(node.core, node.role.state, r)
                  else r == LeaderRole.ReadRefused(LeaderRole.CurrentTermNotCommitted))
  {
    hide LeaderRole.CommittedInTerm, Core.EffectiveConfig, Configuration.HasQuorum, LeaderRole.ReadRequests, H.Asks,
         OwnTermUpTo, H.Asked;
    ScanIff(node.core, node.core.commitIndex);
    if node.role.Leader? && node.role.state.pendingRead.None? && OwnTermUpTo(node.core, node.core.commitIndex) {
      var core, state := node.core, node.role.state;
      var pending := PendingRead(state.nextReadId, core.commitIndex, core.EffectiveConfig(), {core.id});
      H.RoundRepeated(core, state.(nextReadId := state.nextReadId + 1, pendingRead := Some(pending)));
    }
  }

  ghost predicate Begins(core: Core, state: LeaderState, r: LeaderRole.ReadOutcome)
    requires r.ReadStarted?
  {
    var round := PendingRead(state.nextReadId, core.commitIndex, core.EffectiveConfig(), {core.id});
    var counted := state.(nextReadId := state.nextReadId + 1);
    && r.readIndex == core.commitIndex
    && if core.EffectiveConfig().HasQuorum({core.id})
         then && r.state == counted.(confirmedRead := Max(state.confirmedRead, core.commitIndex))
              && r.effects == NO_EFFECTS
       else && r.state == counted.(pendingRead := Some(round)) && !r.effects.persist && r.effects.sendSnapshots == []
            && forall m :: m in r.effects.messages <==> H.Asks(core, r.state, m)
  }

  /** An answer counts exactly if it is from a voter of the round's configuration and has the
      round's number and index. A majority ends the round and confirms its index. */
  lemma AnswerIff(node: Node, m: Message, recent: bool)
    requires node.role.Leader? && m.body.ReadIndexResponse? && m.term == node.core.p.term
    ensures var (node', e) := StepEvent(node, Receive(m, recent));
            var state := node.role.state;
            && e == NO_EFFECTS && node'.core == node.core && node'.role.Leader?
            && var state' := node'.role.state;
               match state.pendingRead
               case None => state' == state
               case Some(round) =>
                 var acks := round.acks + {m.from};
                 if !(round.configuration.IsVoter(m.from) && m.body == ReadIndexResponse(round.id, round.readIndex))
                   then state' == state
                 else if !round.configuration.HasQuorum(acks)
                   then state' == state.(pendingRead := Some(round.(acks := acks)))
                 else state' == state.(pendingRead := None,
                                       confirmedRead := Max(state.confirmedRead, round.readIndex))
  {
    hide Core.EffectiveConfig, Configuration.HasQuorum;
  }
}
