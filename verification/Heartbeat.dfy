/** What a leader sends (consensus/basisdb-raft/src/raft/leader.rs), said server by server. */
module Heartbeat {
  import opened Types
  import opened Membership
  import opened RaftLog
  import opened Event
  import opened RaftCore
  import LeaderRole
  import LogRules
  import RaftNode

  /** How many entries a request that goes on at `next` has. */
  function Size(core: Core, next: LogIndex): nat {
    if next > core.p.log.LastIndex() then 0
    else Min(core.opts.maxEntriesPerMsg + 1, core.p.log.LastIndex() + 1 - next)
  }

  /** The leader's request to go on at `next`: it names the entry before, and has the log from
      there, at least one entry if there is one. */
  predicate Resumes(core: Core, next: LogIndex, m: Message) {
    && next > 0 && m.from == core.id && m.term == core.p.term && m.body.AppendRequest?
    && m.body.prevLogIndex + 1 == next && m.body.prevLogTerm == core.p.log.TermAt(next - 1)
    && m.body.leaderCommit == core.commitIndex
    && |m.body.entries| == Size(core, next)
    && forall k :: 0 <= k < |m.body.entries| ==> Some(m.body.entries[k]) == core.p.log.Get(next + k)
  }

  /** The leader's offer of its snapshot. */
  function Offer(core: Core, to: NodeId): SendSnapshot {
    SendSnapshot(to, core.p.log.snapshotIndex, core.p.log.snapshotTerm,
                 if core.p.log.snapshotConfig.Some? then core.p.log.snapshotConfig.value else core.p.bootstrap)
  }

  predicate Other(core: Core, to: NodeId) {
    to != core.id && core.EffectiveConfig().IsMember(to)
  }

  /** No server is listed twice, as voter and as learner. */
  predicate Single(c: Configuration) {
    forall x :: x in c.learners ==> !c.IsVoter(x)
  }

  /** A server that is to go on past the snapshot gets the log from where it is to go on; one
      that is not gets the snapshot. */
  predicate Served(core: Core, state: LeaderState, to: NodeId, e: Effects) {
    if state.NextOf(to) > core.p.log.snapshotIndex
      then exists m :: m in e.messages && m.to == to && Resumes(core, state.NextOf(to), m)
    else Offer(core, to) in e.sendSnapshots
  }

  /** A request that some member was to get. Without a doubly listed server, or with nothing to
      send, it is the one that goes on where that member is to go on. */
  predicate Due(core: Core, state: LeaderState, m: Message, exact: bool) {
    && m.body.AppendRequest? && Resumes(core, m.body.prevLogIndex + 1, m)
    && state.NextOf(m.to) > core.p.log.snapshotIndex
    && m.body.prevLogIndex + 1 >= state.NextOf(m.to)
    && (exact || Size(core, state.NextOf(m.to)) == 0 ==> m.body.prevLogIndex + 1 == state.NextOf(m.to))
  }

  predicate OfferDue(core: Core, state: LeaderState, s: SendSnapshot) {
    state.NextOf(s.to) <= core.p.log.snapshotIndex && s == Offer(core, s.to)
  }

  /** Where a member is to go on after being served: with pipelining, past what it was sent. */
  predicate Moved(core: Core, state: LeaderState, to: NodeId, state': LeaderState) {
    && state.NextOf(to) <= state'.NextOf(to)
    && (!core.opts.pipelining || state.NextOf(to) <= core.p.log.snapshotIndex || Size(core, state.NextOf(to)) == 0 ==>
          state'.NextOf(to) == state.NextOf(to))
    && (core.opts.pipelining && state.NextOf(to) > core.p.log.snapshotIndex && Single(core.EffectiveConfig()) ==>
          state'.NextOf(to) == state.NextOf(to) + Size(core, state.NextOf(to)))
  }

  // ----- One server -----

  lemma AppendResumes(core: Core, next: LogIndex, to: NodeId)
    requires core.p.log.Contiguous() && core.p.log.snapshotIndex < next
    ensures Resumes(core, next, LeaderRole.AppendFor(core, next, to))
    ensures |LeaderRole.Batch(core, next)| == Size(core, next)
    ensures var n := Size(core, next); n > 0 ==> LeaderRole.Batch(core, next)[n - 1].index == next + n - 1
  {
    hide Log.Slice, Log.TermAt, Log.LastIndex, Log.Get, Log.Contiguous;
    var log := core.p.log;
    var upto := Min(next + core.opts.maxEntriesPerMsg, log.LastIndex() + 1);
    LogRules.SliceAt(log, next, upto, 0);
    assert |log.Slice(next, upto)| == Size(core, next);
    forall k: nat | k < Size(core, next) ensures Some(log.Slice(next, upto)[k]) == log.Get(next + k) {
      LogRules.SliceAt(log, next, upto, k);
    }
    LogRules.EntriesAt(log, next + Max(Size(core, next), 1) - 1);
    LogRules.EntriesAt(log, next - 1);
  }

  lemma ResumesThere(core: Core, next: LogIndex, m: Message)
    requires Resumes(core, next, m)
    ensures m.body.AppendRequest? && m.body.prevLogIndex + 1 == next
  {
  }

  /** One send, in those words. */
  lemma SentOne(core: Core, state: LeaderState, to: NodeId)
    requires core.p.log.Contiguous()
    ensures var (state', e) := LeaderRole.SendAppendTo(core, state, to);
            var next := state.NextOf(to);
            && !e.persist
            && state'.(nextIndex := state.nextIndex) == state
            && (forall x :: x != to ==> state'.NextOf(x) == state.NextOf(x))
            && state'.NextOf(to) == (if core.opts.pipelining && next > core.p.log.snapshotIndex
                                     then next + Size(core, next) else next)
            && (if next > core.p.log.snapshotIndex
                then && e.sendSnapshots == [] && |e.messages| == 1
                     && e.messages[0].to == to && Resumes(core, next, e.messages[0])
                else e.messages == [] && e.sendSnapshots == [Offer(core, to)])
  {
    hide Resumes, LeaderRole.Batch, Log.LastIndex;
    if state.NextOf(to) > core.p.log.snapshotIndex {
      AppendResumes(core, state.NextOf(to), to);
    }
  }

  // ----- All of them, in order -----

  predicate Distinct(ids: seq<NodeId>) {
    forall i, j :: 0 <= i < j < |ids| ==> ids[i] != ids[j]
  }

  lemma {:induction false} Progress(core: Core, state: LeaderState, peers: seq<NodeId>, k: nat, to: NodeId)
    requires core.p.log.Contiguous() && k <= |peers|
    ensures var state' := LeaderRole.SendToFirst(core, state, peers, k).0;
            && state'.(nextIndex := state.nextIndex) == state
            && state.NextOf(to) <= state'.NextOf(to)
            && (to !in peers[..k] || !core.opts.pipelining || state.NextOf(to) <= core.p.log.snapshotIndex
                || Size(core, state.NextOf(to)) == 0 ==>
                  state'.NextOf(to) == state.NextOf(to))
            && (to in peers[..k] && core.opts.pipelining && state.NextOf(to) > core.p.log.snapshotIndex
                && Distinct(peers) ==>
                  state'.NextOf(to) == state.NextOf(to) + Size(core, state.NextOf(to)))
    decreases k
  {
    hide Size, LeaderRole.SendAppendTo, Log.Contiguous, LeaderState.NextOf;
    if k > 0 {
      Progress(core, state, peers, k - 1, to);
      SentOne(core, LeaderRole.SendToFirst(core, state, peers, k - 1).0, peers[k - 1]);
      assert peers[..k] == peers[..k - 1] + [peers[k - 1]];
    }
  }

  lemma {:induction false} EachServed(core: Core, state: LeaderState, peers: seq<NodeId>, k: nat, to: NodeId)
    requires core.p.log.Contiguous() && k <= |peers| && to in peers[..k]
    ensures Served(core, state, to, LeaderRole.SendToFirst(core, state, peers, k).1)
    decreases k
  {
    hide Size, LeaderRole.SendAppendTo, Log.Contiguous, LeaderState.NextOf, Resumes;
    var (state', e) := LeaderRole.SendToFirst(core, state, peers, k - 1);
    var (_, more) := LeaderRole.SendAppendTo(core, state', peers[k - 1]);
    assert peers[..k] == peers[..k - 1] + [peers[k - 1]];
    if to in peers[..k - 1] {
      EachServed(core, state, peers, k - 1, to);
      if state.NextOf(to) > core.p.log.snapshotIndex {
        var m :| m in e.messages && m.to == to && Resumes(core, state.NextOf(to), m);
        assert m in e.Merge(more).messages;
      }
    } else {
      Progress(core, state, peers, k - 1, to);
      SentOne(core, state', to);
      if state.NextOf(to) > core.p.log.snapshotIndex {
        assert more.messages[0] in e.Merge(more).messages;
      } else {
        assert more.sendSnapshots[0] in e.Merge(more).sendSnapshots;
      }
    }
  }

  lemma {:induction false} OnlyDue(core: Core, state: LeaderState, peers: seq<NodeId>, k: nat)
    requires core.p.log.Contiguous() && k <= |peers|
    ensures var e := LeaderRole.SendToFirst(core, state, peers, k).1;
            && !e.persist && |e.messages| + |e.sendSnapshots| == k
            && (forall m :: m in e.messages ==>
                  m.to in peers[..k] && Due(core, state, m, Distinct(peers) || !core.opts.pipelining))
            && (forall s :: s in e.sendSnapshots ==> s.to in peers[..k] && OfferDue(core, state, s))
    decreases k
  {
    hide Size, LeaderRole.SendAppendTo, Log.Contiguous, LeaderState.NextOf, Resumes;
    if k > 0 {
      OnlyDue(core, state, peers, k - 1);
      Progress(core, state, peers, k - 1, peers[k - 1]);
      var state' := LeaderRole.SendToFirst(core, state, peers, k - 1).0;
      SentOne(core, state', peers[k - 1]);
      var more := LeaderRole.SendAppendTo(core, state', peers[k - 1]).1;
      if more.messages != [] {
        ResumesThere(core, state'.NextOf(peers[k - 1]), more.messages[0]);
      }
      assert peers[..k] == peers[..k - 1] + [peers[k - 1]];
    }
  }

  lemma {:induction false} WithoutDistinct(ids: seq<NodeId>, me: NodeId)
    requires Distinct(ids)
    ensures Distinct(Without(ids, me))
  {
    if ids != [] {
      WithoutDistinct(ids[1..], me);
      var rest := Without(ids[1..], me);
      forall j | 0 <= j < |rest| ensures rest[j] != ids[0] {
        assert rest[j] in rest;
      }
    }
  }

  lemma MembersDistinct(c: Configuration)
    requires Single(c)
    ensures Distinct(c.AllNodes())
  {
    var voters, learners := c.Voters(), Ascending(c.learners);
    VotersDistinct(c);
    forall i, j | 0 <= i < |voters| && 0 <= j < |learners| ensures voters[i] != learners[j] {
      assert voters[i] in voters && learners[j] in learners;
    }
  }

  lemma VotersDistinct(c: Configuration)
    ensures Distinct(c.Voters())
  {
    if c.Joint? {
      var a, b := Ascending(c.outgoing), Ascending(c.incoming - c.outgoing);
      forall i, j | 0 <= i < |a| && 0 <= j < |b| ensures a[i] != b[j] {
        assert a[i] in a && b[j] in b;
      }
    }
  }

  /** Every other member is served, nobody else is sent anything. */
  ghost predicate Broadcasts(core: Core, state: LeaderState, state': LeaderState, e: Effects) {
    var exact := Single(core.EffectiveConfig()) || !core.opts.pipelining;
    && (forall to: NodeId :: Other(core, to) ==> Served(core, state, to, e) && Moved(core, state, to, state'))
    && (forall m :: m in e.messages ==> Other(core, m.to) && Due(core, state, m, exact))
    && (forall s :: s in e.sendSnapshots ==> Other(core, s.to) && OfferDue(core, state, s))
    && |e.messages| + |e.sendSnapshots| == |Without(core.EffectiveConfig().AllNodes(), core.id)|
    && (forall x: NodeId :: !Other(core, x) ==> state'.NextOf(x) == state.NextOf(x))
    && state'.(nextIndex := state.nextIndex) == state
    && !e.persist
  }

  lemma PeersAre(core: Core)
    ensures var peers := Without(core.EffectiveConfig().AllNodes(), core.id);
            && (forall to: NodeId :: to in peers <==> Other(core, to))
            && (Single(core.EffectiveConfig()) ==> Distinct(peers))
  {
    hide Core.EffectiveConfig, Configuration.AllNodes, Configuration.IsMember, Without, Distinct;
    QuorumIff(core.EffectiveConfig(), {});
    if Single(core.EffectiveConfig()) {
      MembersDistinct(core.EffectiveConfig());
      WithoutDistinct(core.EffectiveConfig().AllNodes(), core.id);
    }
  }

  lemma BroadcastIs(core: Core, state: LeaderState)
    requires core.p.log.Contiguous()
    ensures var (state', e) := LeaderRole.BroadcastAppend(core, state);
            Broadcasts(core, state, state', e)
  {
    hide Size, LeaderRole.SendToFirst, Log.Contiguous, LeaderState.NextOf, Resumes, Core.EffectiveConfig, Served,
         OfferDue, Other, Single, Distinct, Without, Configuration.AllNodes;
    var peers := Without(core.EffectiveConfig().AllNodes(), core.id);
    assert peers[..|peers|] == peers;
    PeersAre(core);
    var (state', e) := LeaderRole.SendToFirst(core, state, peers, |peers|);
    forall x: NodeId
      ensures Other(core, x) ==> Moved(core, state, x, state')
      ensures !Other(core, x) ==> state'.NextOf(x) == state.NextOf(x)
    {
      Progress(core, state, peers, |peers|, x);
    }
    forall to: NodeId | Other(core, to) ensures Served(core, state, to, e) {
      EachServed(core, state, peers, |peers|, to);
    }
    Progress(core, state, peers, |peers|, core.id);
    OnlyDue(core, state, peers, |peers|);
  }

  lemma BroadcastNotSaved(core: Core, state: LeaderState, state': LeaderState, e: Effects)
    requires Broadcasts(core, state, state', e)
    ensures !e.persist
  {
  }

  // ----- The heartbeat -----

  /** A request that repeats the round of read confirmation in progress. */
  predicate Asks(core: Core, state: LeaderState, m: Message) {
    && state.pendingRead.Some? && m.to != core.id && state.pendingRead.value.configuration.IsVoter(m.to)
    && m == Message(core.id, m.to, core.p.term,
                    ReadIndexRequest(state.pendingRead.value.id, state.pendingRead.value.readIndex))
  }

  function Asked(core: Core, state: LeaderState): nat {
    if state.pendingRead.None? then 0 else |Without(state.pendingRead.value.configuration.Voters(), core.id)|
  }

  ghost predicate Beats(core: Core, state: LeaderState, state': LeaderState, e: Effects) {
    var exact := Single(core.EffectiveConfig()) || !core.opts.pipelining;
    && (forall to: NodeId :: Other(core, to) ==> Served(core, state, to, e) && Moved(core, state, to, state'))
    && (forall m :: Asks(core, state, m) ==> m in e.messages)
    && (forall m :: m in e.messages && m.body.AppendRequest? ==> Other(core, m.to) && Due(core, state, m, exact))
    && (forall m :: m in e.messages && !m.body.AppendRequest? ==> Asks(core, state, m))
    && (forall s :: s in e.sendSnapshots ==> Other(core, s.to) && OfferDue(core, state, s))
    && |e.messages| + |e.sendSnapshots| == |Without(core.EffectiveConfig().AllNodes(), core.id)| + Asked(core, state)
    && (forall x: NodeId :: !Other(core, x) ==> state'.NextOf(x) == state.NextOf(x))
    && state'.(nextIndex := state.nextIndex) == state
    && !e.persist
  }

  /** A heartbeat serves every other member, repeats the round in progress to every other voter
      of its configuration, sends nobody else anything and changes nothing but where members are
      to go on. */
  lemma Heartbeat(node: Node)
    requires node.role.Leader? && node.core.p.log.Contiguous()
    ensures var (node', e) := RaftNode.StepEvent(node, Tick(true));
            && node'.core == node.core && node'.role.Leader?
            && Beats(node.core, node.role.state, node'.role.state, e)
  {
    hide LeaderRole.BroadcastAppend, Served, Moved, Other, Due, OfferDue, Without, Configuration.AllNodes, Single,
         LeaderRole.ReadRequests, Core.EffectiveConfig, LeaderState.NextOf, Log.Contiguous;
    var core, state := node.core, node.role.state;
    var (state', e) := LeaderRole.BroadcastAppend(core, state);
    BroadcastIs(core, state);
    if state.pendingRead.Some? {
      RoundRepeated(core, state);
    }
    var asks := if state.pendingRead.Some? then LeaderRole.ReadRequests(core, state.pendingRead.value) else NO_EFFECTS;
    var all := e.Merge(asks);
    assert all.sendSnapshots == e.sendSnapshots;
    forall to: NodeId | Other(core, to) ensures Served(core, state, to, all) {
      StillServed(core, state, to, e, asks);
    }
    forall m | m in e.messages ensures m.body.AppendRequest? {
      DueAppend(core, state, m);
    }
  }

  lemma DueAppend(core: Core, state: LeaderState, m: Message)
    ensures Due(core, state, m, true) || Due(core, state, m, false) ==> m.body.AppendRequest?
  {
  }

  lemma StillServed(core: Core, state: LeaderState, to: NodeId, e: Effects, more: Effects)
    requires Served(core, state, to, e)
    ensures Served(core, state, to, e.Merge(more))
  {
    hide Resumes;
    if state.NextOf(to) > core.p.log.snapshotIndex {
      var m :| m in e.messages && m.to == to && Resumes(core, state.NextOf(to), m);
      assert m in e.Merge(more).messages;
    }
  }

  lemma RoundRepeated(core: Core, state: LeaderState)
    requires state.pendingRead.Some?
    ensures var e := LeaderRole.ReadRequests(core, state.pendingRead.value);
            && !e.persist && e.sendSnapshots == [] && |e.messages| == Asked(core, state)
            && forall m :: m in e.messages <==> Asks(core, state, m)
  {
    var pending := state.pendingRead.value;
    var peers := Without(pending.configuration.Voters(), core.id);
    var e := LeaderRole.ReadRequests(core, pending);
    QuorumIff(pending.configuration, {});
    forall m | Asks(core, state, m) ensures m in e.messages {
      assert m.to in peers;
      var k :| 0 <= k < |peers| && peers[k] == m.to;
      assert e.messages[k] == m;
    }
    forall m | m in e.messages ensures Asks(core, state, m) {
      var k :| 0 <= k < |peers| && e.messages[k] == m;
      assert m.to == peers[k] && peers[k] in peers;
    }
  }

  /** While the deadline has not passed, time does nothing to any server. */
  lemma IdleTick(node: Node)
    ensures RaftNode.StepEvent(node, Tick(false)) == (node, NO_EFFECTS)
  {
  }

  // ----- Answers -----

  /** A member that refused an append request is at once served from where its answer says, or,
      with pipelining, from past what it is known to hold if that is more; nobody else is sent
      anything. */
  lemma Rejected(node: Node, m: Message, recent: bool)
    requires node.role.Leader? && node.core.p.log.Contiguous()
    requires m.term == node.core.p.term && m.body.AppendResponse? && !m.body.success
    requires node.core.EffectiveConfig().IsMember(m.from)
    ensures var (node', e) := RaftNode.StepEvent(node, Receive(m, recent));
            var core, state, last := node.core, node.role.state, m.body.ackLastIndex;
            var next := if core.opts.pipelining then Max(last + 1, state.MatchOf(m.from) + 1) else last + 1;
            && node'.core == core && node'.role.Leader? && !e.persist
            && node'.role.state.(nextIndex := state.nextIndex) == state
            && (forall x :: x != m.from ==> node'.role.state.NextOf(x) == state.NextOf(x))
            && (if next > core.p.log.snapshotIndex
                then && e.sendSnapshots == [] && |e.messages| == 1 && e.messages[0].to == m.from
                     && Resumes(core, next, e.messages[0])
                     && node'.role.state.NextOf(m.from) == next + if core.opts.pipelining then Size(core, next) else 0
                else && e.messages == [] && e.sendSnapshots == [Offer(core, m.from)]
                     && node'.role.state.NextOf(m.from) == next)
  {
    hide Resumes, LeaderRole.SendAppendTo, Log.LastIndex, Core.EffectiveConfig, Log.Contiguous;
    var state, last := node.role.state, m.body.ackLastIndex;
    var next := if node.core.opts.pipelining then Max(last + 1, state.MatchOf(m.from) + 1) else last + 1;
    SentOne(node.core, state.(nextIndex := state.nextIndex[m.from := next]), m.from);
  }

  /** The answer of a server that is no member changes nothing. */
  lemma Unknown(node: Node, m: Message, recent: bool)
    requires node.role.Leader? && m.body.AppendResponse? && m.term == node.core.p.term
    requires !node.core.EffectiveConfig().IsMember(m.from)
    ensures RaftNode.StepEvent(node, Receive(m, recent)) == (node, NO_EFFECTS)
  {
  }
}
