/** From agreement on the log to agreement on the data. */
module Replication {
  import opened Types
  import opened RaftLog
  import opened Event
  import FollowerRole
  import opened Merging
  import opened RefineRoles
  import opened Cluster
  import opened Safety
  import opened Theorems
  import H = History
  import NodeDurability
  import Numbering
  import Proposals
  import RaftNode
  import Kv
  import Runtime

  /** The key-value state of a replica: what its machine was fed since it started. */
  function Data(decode: Bytes -> Option<Kv.Command>, mc: Machine): Kv.KvState {
    Runtime.Feed(decode, Kv.FRESH_STATE, mc.applied)
  }

  /** In honest runs any two replicas, at any times, are on one line of states: one of them
      becomes the other by going on applying; with equally much applied they are equal. */
  lemma ReplicasAgree(run: Run, decode: Bytes -> Option<Kv.Command>, j: nat, k: nat, a: NodeId, b: NodeId)
    requires IsRun(run) && HonestRun(run) && j < |run.states| && k < |run.states|
    requires a in run.states[j].machines && b in run.states[k].machines
    requires |run.states[j].machines[a].applied| <= |run.states[k].machines[b].applied|
    ensures var first, second := run.states[j].machines[a], run.states[k].machines[b];
            && first.applied <= second.applied
            && Data(decode, second) == Runtime.Feed(decode, Data(decode, first), second.applied[|first.applied|..])
            && (|first.applied| == |second.applied| ==> Data(decode, first) == Data(decode, second))
  {
    hide IsRun, HonestRun, Runtime.Feed;
    StateMachineSafety(run, j, k, a, b);
    var p, q := run.states[j].machines[a].applied, run.states[k].machines[b].applied;
    assert q == p + q[|p|..];
    assert |p| == |q| ==> p == q;
    Runtime.FeedSplit(decode, Kv.FRESH_STATE, p, q[|p|..]);
  }

  /** Every state a replica can be in satisfies what the key-value machine promises. */
  lemma {:induction false} DataValid(decode: Bytes -> Option<Kv.Command>, state: Kv.KvState, entries: seq<Entry>)
    requires Kv.Valid(state)
    ensures Kv.Valid(Runtime.Feed(decode, state, entries))
  {
    hide Kv.Valid, Kv.Apply;
    if entries != [] {
      DataValid(decode, state, entries[..|entries| - 1]);
      var before, payload := Runtime.Feed(decode, state, entries[..|entries| - 1]), entries[|entries| - 1].payload;
      if payload.Command? && decode(payload.bytes).Some? {
        Kv.ApplyValid(before, decode(payload.bytes).value);
      }
    }
  }

  /** In every run a message that is delivered fits: the node keeps its log numbered, as the
      runtime relies on. */
  lemma DeliveriesFit(run: Run, k: nat)
    requires IsRun(run) && k < |run.moves| && run.moves[k].step.DeliverStep?
    ensures run.moves[k].who in run.states[k].machines
    ensures Numbering.Fits(run.states[k].machines[run.moves[k].who].node, run.moves[k].step.m)
  {
    hide Do, Tracks, H.Extends, Numbering.Fits;
    var hs := RunWitness(false, run);
    FitsHere(run.states[k], hs[k], run.moves[k].who, run.moves[k].step.m, run.moves[k].step.recent);
  }

  lemma FitsHere(c: ClusterState, h: H.History, i: NodeId, m: Message, recent: bool)
    requires Possible(c, i, DeliverStep(m, recent)) && Tracks(false, c, h)
    ensures Numbering.Fits(c.machines[i].node, m)
  {
    hide FollowerRole.Merge;
    var log := c.machines[i].node.core.p.log;
    assert MachineOk(c.voters, i, c.machines[i]);
    LogFacts(false, c, h, i);
    MachinePlain(c.voters, c.machines[i].node);
    if m.body.AppendRequest? && FollowerRole.PrevMatches(log, m.body) {
      DeliveredMergeable(log, m, h);
      MergedLog(log, m.body);
      MergeKeepsPlain(log, m.body);
    }
  }

  lemma MergeKeepsPlain(log: Log, req: MessageBody)
    requires Plain(log) && req.AppendRequest? && Acceptable(log, req) && FollowerRole.PrevMatches(log, req)
    ensures FollowerRole.Merge(log, req.entries).Contiguous()
  {
    hide FollowerRole.Merge;
    MergedLog(log, req);
    if req.entries != [] {
      MergeAtPlain(log, req.prevLogIndex, req.entries);
    }
  }

  // ----- Proposals -----

  /** The entry that a proposal of the run makes. */
  function Proposal(c: ClusterState, i: NodeId, command: Bytes): Entry
    requires i in c.machines && RaftNode.Propose(c.machines[i].node, command).Proposed?
  {
    Entry(TermOf(c, i), RaftNode.Propose(c.machines[i].node, command).index, Command(command))
  }

  /** In every run a proposal puts its command at an index that its leader's log did not have, and
      whoever at any time has an entry of that term at that index has this one. */
  lemma ProposalFound(run: Run, k: nat, j: nat, b: NodeId)
    requires IsRun(run) && k < |run.moves| && run.moves[k].step.ProposeStep?
    requires j < |run.states| && b in run.states[j].machines
    ensures var (a, c, log) := (run.moves[k].who, run.states[k], LogOf(run.states[j], b));
            && Possible(c, a, run.moves[k].step)
            && var e := Proposal(c, a, run.moves[k].step.command);
               && a in run.states[k + 1].machines && e.index == |LogOf(c, a)| + 1 <= |LogOf(run.states[k + 1], a)|
               && LogOf(run.states[k + 1], a)[e.index - 1] == e
               && (e.index <= |log| && log[e.index - 1].term == e.term ==> log[e.index - 1] == e)
  {
    hide Do, HonestRun;
    var a, c, command := run.moves[k].who, run.states[k], run.moves[k].step.command;
    ProposalKept(run, k);
    var (e, log) := (Proposal(c, a, command), LogOf(run.states[j], b));
    if e.index <= |log| && log[e.index - 1].term == e.term {
      LogsMatch(run, k + 1, j, a, b, e.index);
      assert LogOf(run.states[k + 1], a)[..e.index][e.index - 1] == log[..e.index][e.index - 1];
    }
  }

  lemma ProposalKept(run: Run, k: nat)
    requires IsRun(run) && k < |run.moves| && run.moves[k].step.ProposeStep?
    ensures var (a, c) := (run.moves[k].who, run.states[k]);
            && Possible(c, a, run.moves[k].step)
            && var e := Proposal(c, a, run.moves[k].step.command);
               && a in run.states[k + 1].machines && e.index == |LogOf(c, a)| + 1 <= |LogOf(run.states[k + 1], a)|
               && LogOf(run.states[k + 1], a)[e.index - 1] == e
  {
    hide RaftNode.Propose, Cluster.ApplyCommitted;
    var a, c, command := run.moves[k].who, run.states[k], run.moves[k].step.command;
    NodeDurability.PlainNode(run, k, a);
    var node := c.machines[a].node;
    Proposals.ProposalPlaced(node, command);
    ApplyOnlyCounts(RaftNode.Propose(node, command).node.core, c.machines[a].applied);
    assert run.states[k + 1] == Do(c, a, run.moves[k].step);
  }

  /** In honest runs, what is applied at a proposal's index and is of its term is its command, on
      every server at every time. */
  lemma ProposalApplied(run: Run, k: nat, j: nat, b: NodeId)
    requires IsRun(run) && HonestRun(run) && k < |run.moves| && run.moves[k].step.ProposeStep?
    requires j < |run.states| && b in run.states[j].machines
    ensures var (a, c, applied) := (run.moves[k].who, run.states[k], run.states[j].machines[b].applied);
            && Possible(c, a, run.moves[k].step)
            && var e := Proposal(c, a, run.moves[k].step.command);
               e.index <= |applied| && applied[e.index - 1].term == e.term ==> applied[e.index - 1] == e
  {
    hide Do, HonestRun, Possible;
    ProposalFound(run, k, j, b);
    StateMachineSafety(run, j, j, b, b);
  }
}
