/** A cluster of nodes, each with its durable copy and the commands it has applied
    (basisdb-node/src/runtime.rs drives one such machine). */
module Cluster {
  import opened Types
  import opened RaftLog
  import opened Event
  import opened RaftCore
  import opened RaftNode

  /** `durable` is what the store would give back; `applied` is what the state machine has
      been fed since the last start. */
  datatype Machine = Machine(node: Node, durable: Persistent, applied: seq<Entry>)

  /** `net` holds every message ever sent; delivery picks from it freely, so messages may be
      lost, repeated and reordered. */
  datatype ClusterState = ClusterState(voters: set<NodeId>, machines: map<NodeId, Machine>, net: set<Message>)

  /** Applies committed commands one at a time. In a log numbered from 1 the guard is
      always true; the source has none and relies on that numbering. */
  function ApplyCommitted(core: Core, applied: seq<Entry>): (Core, seq<Entry>)
    decreases if core.commitIndex > core.lastApplied then core.commitIndex - core.lastApplied else 0
  {
    match NextCommitted(core, core.lastApplied + 1)
    case None => (core, applied)
    case Some(e) =>
      if core.lastApplied < e.index <= core.commitIndex then
        ApplyCommitted(core.(lastApplied := e.index), applied + [e])
      else (core, applied)
  }

  function Sent(effects: Effects): set<Message> {
    if effects.sendSnapshots != [] then {} else set m | m in effects.messages
  }

  /** The runtime's order: persist, then send, then apply. */
  function HandleEffects(mc: Machine, node: Node, effects: Effects): Machine {
    var durable := if effects.persist then node.core.p else mc.durable;
    var (core, applied) := ApplyCommitted(node.core, mc.applied);
    Machine(Node(core, node.role), durable, applied)
  }

  datatype Step =
    | TickStep(expired: bool)
    | DeliverStep(m: Message, recent: bool)
    | ProposeStep(command: Bytes)
    | ReadStep
    | TransferStep(target: NodeId)
    | CrashStep

  predicate Possible(c: ClusterState, i: NodeId, step: Step) {
    i in c.machines &&
    var node := c.machines[i].node;
    match step
    case DeliverStep(m, _) => m in c.net && m.to == i && m.from != i && m.from in c.voters
    case ProposeStep(command) => Propose(node, command).Proposed?
    case ReadStep => RequestReadIndex(node).ReadStarted?
    case TransferStep(target) => TransferLeadership(node, target).Some?
    case _ => true
  }

  /** The node and effects a step produces; a crash forgets everything but the durable copy. */
  function NodeStep(c: ClusterState, i: NodeId, step: Step): (Node, Effects)
    requires Possible(c, i, step)
  {
    var node := c.machines[i].node;
    match step
    case TickStep(expired) => StepEvent(node, Tick(expired))
    case DeliverStep(m, recent) => StepEvent(node, Receive(m, recent))
    case ProposeStep(command) => (Propose(node, command).node, Propose(node, command).effects)
    case ReadStep =>
      var r := RequestReadIndex(node);
      (Node(node.core, Leader(r.state)), r.effects)
    case TransferStep(target) => (node, TransferLeadership(node, target).value)
    case CrashStep => (Restore(node.core.id, node.core.opts, c.machines[i].durable), NO_EFFECTS)
  }

  function Do(c: ClusterState, i: NodeId, step: Step): ClusterState
    requires Possible(c, i, step)
  {
    var (node, effects) := NodeStep(c, i, step);
    var mc := c.machines[i];
    var from := if step.CrashStep? then mc.(applied := []) else mc;
    ClusterState(c.voters, c.machines[i := HandleEffects(from, node, effects)], c.net + Sent(effects))
  }

  /** Every server starts empty, knowing the same voters; the parallel disk write is off. */
  ghost predicate Initial(c: ClusterState) {
    && c.net == {}
    && c.machines.Keys == c.voters
    && forall i :: i in c.machines ==>
         var mc := c.machines[i];
         && mc.node == NewNode(i, mc.node.core.opts, c.voters)
         && !mc.node.core.opts.parallelDiskWrite
         && mc.durable == mc.node.core.p
         && mc.applied == []
  }

  /** One event of a run: which server moved, and how. */
  datatype Move = Move(who: NodeId, step: Step)

  /** A run: states joined by moves. */
  datatype Run = Run(states: seq<ClusterState>, moves: seq<Move>)

  ghost predicate IsRun(run: Run) {
    && |run.states| == |run.moves| + 1
    && Initial(run.states[0])
    && forall k :: 0 <= k < |run.moves| ==>
         && Possible(run.states[k], run.moves[k].who, run.moves[k].step)
         && run.states[k + 1] == Do(run.states[k], run.moves[k].who, run.moves[k].step)
  }

  ghost predicate IsLeader(c: ClusterState, i: NodeId, t: Term) {
    i in c.machines && c.machines[i].node.role.Leader? && c.machines[i].node.core.p.term == t
  }
}
